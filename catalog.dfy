/**
 * The option catalog of auto-status/Plugin.cs: the list of selectable online
 * statuses built from the game's OnlineStatus sheet, and the side-effect-free
 * searches the plugin runs over it (`statusOptions` is passed in as `options`).
 */
module StatusCatalog {
  import opened Wrappers
  import opened Text
  import opened Config

  /** The reserved "Looking for Party" status, applied through the `/lfp` command. */
  const LookingForPartyStatusId: StatusId := 23

  /** The allow-list shown when "show all statuses" is off. */
  const CuratedStatusIds: set<StatusId> := {47, 23, 21, 29, 30, 28, 27, 12, 22, 44, 17}

  /** One row of the OnlineStatus sheet: its row id and its display name. */
  datatype SheetRow = SheetRow(rowId: StatusId, name: string)

  /** `OnlineStatusOption(Id, Label)`. */
  datatype StatusOption = StatusOption(id: StatusId, labelText: string)

  /** The label `$"{name} (ID {id})"`. */
  function OptionLabel(name: string, id: StatusId): string {
    name + " (ID " + DecimalString(id) + ")"
  }

  /** A sheet row is listed when its name is not blank and, unless all statuses are shown, it is curated. */
  predicate Admitted(row: SheetRow, showAll: bool) {
    !IsBlank(row.name) && (showAll || row.rowId in CuratedStatusIds)
  }

  function OptionOf(row: SheetRow): StatusOption {
    StatusOption(row.rowId, OptionLabel(row.name, row.rowId))
  }

  /** The options the sheet yields, in sheet order: the admitted rows, each turned into an option. */
  function CatalogOf(rows: seq<SheetRow>, showAll: bool): (r: seq<StatusOption>)
    ensures |r| <= |rows|
    ensures !showAll ==> forall i :: 0 <= i < |r| ==> r[i].id in CuratedStatusIds
    decreases |rows|
  {
    if rows == [] then []
    else
      var last := rows[|rows| - 1];
      CatalogOf(rows[..|rows| - 1], showAll) + (if Admitted(last, showAll) then [OptionOf(last)] else [])
  }

  /** Every listed option comes from an admitted row: non-blank name, curated unless all are shown, labelled by that row. */
  lemma {:induction false} CatalogSound(rows: seq<SheetRow>, showAll: bool, i: nat)
    requires i < |CatalogOf(rows, showAll)|
    ensures exists j :: 0 <= j < |rows| && Admitted(rows[j], showAll) && CatalogOf(rows, showAll)[i] == OptionOf(rows[j])
    decreases |rows|
  {
    var init := rows[..|rows| - 1];
    var prefix := CatalogOf(init, showAll);
    if i < |prefix| {
      CatalogSound(init, showAll, i);
      var j :| 0 <= j < |init| && Admitted(init[j], showAll) && prefix[i] == OptionOf(init[j]);
      assert rows[j] == init[j];
    } else {
      assert CatalogOf(rows, showAll)[i] == OptionOf(rows[|rows| - 1]);
    }
  }

  /** Every admitted row is listed. */
  lemma {:induction false} CatalogComplete(rows: seq<SheetRow>, showAll: bool, j: nat)
    requires j < |rows| && Admitted(rows[j], showAll)
    ensures OptionOf(rows[j]) in CatalogOf(rows, showAll)
    decreases |rows|
  {
    var init := rows[..|rows| - 1];
    if j < |init| {
      CatalogComplete(init, showAll, j);
      assert init[j] == rows[j];
    }
  }

  /** The options of a sheet that may be missing (`GetExcelSheet` returning null gives no options). */
  function SheetOptions(sheet: Option<seq<SheetRow>>, showAll: bool): seq<StatusOption> {
    match sheet
    case None => []
    case Some(rows) => CatalogOf(rows, showAll)
  }

  /** LoadStatusOptions (auto-status/Plugin.cs:234-261): one pass over the sheet, appending admitted rows. */
  method LoadStatusOptions(sheet: Option<seq<SheetRow>>, showAll: bool) returns (options: seq<StatusOption>)
    ensures options == SheetOptions(sheet, showAll)
    ensures forall i :: 0 <= i < |options| ==> !showAll ==> options[i].id in CuratedStatusIds
  {
    options := [];
    if sheet.None? {
      return;
    }
    var rows := sheet.value;
    for k := 0 to |rows|
      invariant options == CatalogOf(rows[..k], showAll)
    {
      var row := rows[k];
      assert rows[..k + 1][..k] == rows[..k];
      if IsBlank(row.name) {
        continue;
      }
      if !showAll && row.rowId !in CuratedStatusIds {
        continue;
      }
      options := options + [OptionOf(row)];
    }
    assert rows[..|rows|] == rows;
  }

  predicate UniqueIds(options: seq<StatusOption>) {
    forall i, j :: 0 <= i < j < |options| ==> options[i].id != options[j].id
  }

  predicate UniqueRowIds(rows: seq<SheetRow>) {
    forall i, j :: 0 <= i < j < |rows| ==> rows[i].rowId != rows[j].rowId
  }

  /** Sheet row ids are unique, so option ids are too: an id picks out one option. */
  lemma {:induction false} CatalogIdsUnique(rows: seq<SheetRow>, showAll: bool)
    requires UniqueRowIds(rows)
    ensures UniqueIds(CatalogOf(rows, showAll))
    decreases |rows|
  {
    if rows != [] {
      var init := rows[..|rows| - 1];
      var last := rows[|rows| - 1];
      CatalogIdsUnique(init, showAll);
      var prefix := CatalogOf(init, showAll);
      if Admitted(last, showAll) {
        forall i | 0 <= i < |prefix| ensures prefix[i].id != last.rowId {
          CatalogSound(init, showAll, i);
          var j :| 0 <= j < |init| && Admitted(init[j], showAll) && prefix[i] == OptionOf(init[j]);
          assert init[j] == rows[j];
        }
      }
    }
  }

  /** IsStatusIdValid (auto-status/Plugin.cs:309-320). */
  function IsStatusIdValid(options: seq<StatusOption>, statusId: StatusId): (r: bool)
    ensures r <==> exists j :: 0 <= j < |options| && options[j].id == statusId
  {
    if options == [] then false
    else if options[0].id == statusId then true
    else
      assert forall j :: 1 <= j < |options| ==> options[1..][j - 1] == options[j];
      IsStatusIdValid(options[1..], statusId)
  }

  /** The first index at or after `i` holding `statusId`, or `|options|` when there is none. */
  function SearchFrom(options: seq<StatusOption>, statusId: StatusId, i: nat): (k: nat)
    requires i <= |options|
    ensures i <= k <= |options|
    ensures k < |options| ==> options[k].id == statusId
    ensures forall j :: i <= j < k ==> options[j].id != statusId
    decreases |options| - i
  {
    if i == |options| then i
    else if options[i].id == statusId then i
    else SearchFrom(options, statusId, i + 1)
  }

  /** GetStatusIndex (auto-status/Plugin.cs:96-107): the first index holding the id, else 0. */
  function GetStatusIndex(options: seq<StatusOption>, statusId: StatusId): (r: nat)
    ensures options != [] ==> r < |options|
    ensures IsStatusIdValid(options, statusId) ==>
      options[r].id == statusId && forall j :: 0 <= j < r ==> options[j].id != statusId
    ensures !IsStatusIdValid(options, statusId) ==> r == 0
  {
    var k := SearchFrom(options, statusId, 0);
    if k < |options| then k else 0
  }

  /** GetStatusId (auto-status/Plugin.cs:109-117): the id at an index, or the sentinel out of range. */
  function GetStatusId(options: seq<StatusOption>, index: int): (r: StatusId)
    ensures 0 <= index < |options| ==> IsStatusIdValid(options, r) && r == options[index].id
    ensures !(0 <= index < |options|) ==> r == UnsetStatusId
  {
    if index < 0 || index >= |options| then UnsetStatusId else options[index].id
  }

  /** GetFallbackStatusId (auto-status/Plugin.cs:304-307): the first option's id, or the sentinel. */
  function GetFallbackStatusId(options: seq<StatusOption>): (r: StatusId)
    ensures options != [] ==> IsStatusIdValid(options, r) && r == options[0].id
    ensures options == [] ==> r == UnsetStatusId
  {
    if |options| > 0 then options[0].id else UnsetStatusId
  }

  /** A configured id that is listed survives the round trip through the index the settings combo shows. */
  lemma IdRoundTrip(options: seq<StatusOption>, statusId: StatusId)
    ensures IsStatusIdValid(options, statusId) ==> GetStatusId(options, GetStatusIndex(options, statusId)) == statusId
    ensures !IsStatusIdValid(options, statusId) ==>
      GetStatusId(options, GetStatusIndex(options, statusId)) == GetFallbackStatusId(options)
  {
  }

  /** With unique ids, an index survives the round trip through its id. */
  lemma IndexRoundTrip(options: seq<StatusOption>, index: int)
    requires UniqueIds(options)
    requires 0 <= index < |options|
    ensures GetStatusIndex(options, GetStatusId(options, index)) == index
  {
  }

  /** Some token of `tokens` occurs in `caption`, ignoring case. */
  function AnyTokenIn(caption: string, tokens: seq<string>): (r: bool)
    ensures r <==> exists k :: 0 <= k < |tokens| && ContainsIgnoreCase(caption, tokens[k])
  {
    if tokens == [] then false
    else if ContainsIgnoreCase(caption, tokens[0]) then true
    else
      assert forall k :: 1 <= k < |tokens| ==> tokens[1..][k - 1] == tokens[k];
      AnyTokenIn(caption, tokens[1..])
  }

  /** FindStatusIdByTokens (auto-status/Plugin.cs:332-346): the id of the first option whose label holds a token. */
  function FindStatusIdByTokens(options: seq<StatusOption>, tokens: seq<string>): (r: StatusId)
    ensures r == UnsetStatusId || IsStatusIdValid(options, r)
    ensures (forall i :: 0 <= i < |options| ==> !AnyTokenIn(options[i].labelText, tokens)) ==> r == UnsetStatusId
    ensures forall i ::
      (0 <= i < |options| && AnyTokenIn(options[i].labelText, tokens) &&
       forall j :: 0 <= j < i ==> !AnyTokenIn(options[j].labelText, tokens))
      ==> r == options[i].id
  {
    if options == [] then UnsetStatusId
    else if AnyTokenIn(options[0].labelText, tokens) then options[0].id
    else
      assert forall i :: 1 <= i < |options| ==> options[1..][i - 1] == options[i];
      FindStatusIdByTokens(options[1..], tokens)
  }

  /** A non-empty word of ASCII letters none of which is `i` or `d`, in either case. */
  predicate PlainWord(t: string) {
    |t| > 0 && forall j :: 0 <= j < |t| ==> IsAsciiLetter(t[j]) && ToLowerAscii(t[j]) != 'i' && ToLowerAscii(t[j]) != 'd'
  }

  /** The only letters of the appended `" (ID n)"` are `I` and `D`. */
  lemma IdSuffixLetters(id: StatusId, k: nat)
    requires k < |" (ID " + DecimalString(id) + ")"|
    ensures var c := (" (ID " + DecimalString(id) + ")")[k];
      !IsAsciiLetter(c) || ToLowerAscii(c) == 'i' || ToLowerAscii(c) == 'd'
  {
    var digits := DecimalString(id);
    var suffix := " (ID " + digits + ")";
    if 5 <= k < 5 + |digits| {
      assert suffix[k] == digits[k - 5];
    }
  }

  /** Looking a plain word up in a label finds it exactly when the status name holds it. */
  lemma {:induction false} LabelMatchesOnName(name: string, id: StatusId, t: string)
    requires PlainWord(t)
    ensures ContainsIgnoreCase(OptionLabel(name, id), t) <==> ContainsIgnoreCase(name, t)
  {
    var suffix := " (ID " + DecimalString(id) + ")";
    var lbl := OptionLabel(name, id);
    assert lbl == name + suffix;
    if ContainsIgnoreCase(name, t) {
      var i: nat :| MatchAt(name, t, i);
      assert MatchAt(lbl, t, i);
    }
    if ContainsIgnoreCase(lbl, t) {
      var i: nat :| MatchAt(lbl, t, i);
      if i + |t| <= |name| {
        assert MatchAt(name, t, i);
      } else {
        var q := if i >= |name| then i else |name|;
        var j := q - i;
        assert 0 <= j < |t|;
        assert ToLowerAscii(lbl[i + j]) == ToLowerAscii(t[j]);
        assert lbl[q] == suffix[q - |name|];
        IdSuffixLetters(id, q - |name|);
        assert false;
      }
    }
  }

  /** The legacy keywords are plain words, so the lookup ignores the `(ID n)` part of a label. */
  lemma KeywordsArePlain(kind: StatusKind)
    ensures PlainWord(Keyword(kind))
  {
  }

  /** The keyword the legacy preference is looked up by. */
  function Keyword(kind: StatusKind): string {
    match kind
    case Busy => "busy"
    case Away => "away"
    case Afk => "afk"
  }

  /** FindLegacyStatusId (auto-status/Plugin.cs:322-330): the first option whose label contains the kind's keyword. */
  function FindLegacyStatusId(options: seq<StatusOption>, kind: StatusKind): (r: StatusId)
    ensures r == UnsetStatusId || IsStatusIdValid(options, r)
    ensures (forall i :: 0 <= i < |options| ==> !ContainsIgnoreCase(options[i].labelText, Keyword(kind))) ==>
      r == UnsetStatusId
    ensures forall i ::
      (0 <= i < |options| && ContainsIgnoreCase(options[i].labelText, Keyword(kind)) &&
       forall j :: 0 <= j < i ==> !ContainsIgnoreCase(options[j].labelText, Keyword(kind)))
      ==> r == options[i].id
  {
    FindStatusIdByTokens(options, [Keyword(kind)])
  }
}

/**
 * The configuration repairs auto-status/Plugin.cs runs on startup and whenever
 * the option catalog is reloaded, stated as functions of the configuration and
 * the current options. The `Plugin` methods that mutate the configuration are
 * proved to produce exactly these values.
 */
module Bootstrap {
  import opened Wrappers
  import opened Config
  import opened StatusCatalog

  /** EnsureDefaults (auto-status/Plugin.cs:263-274): the one-shot migration of the legacy preference. */
  function Migrated(c: Configuration, options: seq<StatusOption>): (r: Configuration)
    ensures r.version >= 1
    ensures c.version >= 1 ==> r == c
    ensures c.version < 1 ==> r.version == 1 && r.activeStatusId == UnsetStatusId
    ensures c.version < 1 ==> r.inactiveStatusId == FindLegacyStatusId(options, c.statusOnTabOut)
    ensures r == c.(version := r.version, activeStatusId := r.activeStatusId, inactiveStatusId := r.inactiveStatusId)
  {
    if c.version >= 1 then c
    else c.(activeStatusId := UnsetStatusId,
            inactiveStatusId := FindLegacyStatusId(options, c.statusOnTabOut),
            version := 1)
  }

  /** EnsureStatusIdsValid changes (and saves) the configuration exactly in this case. */
  predicate RepairNeeded(c: Configuration, options: seq<StatusOption>) {
    GetFallbackStatusId(options) != UnsetStatusId &&
    (!IsStatusIdValid(options, c.activeStatusId) || !IsStatusIdValid(options, c.inactiveStatusId))
  }

  /** EnsureStatusIdsValid (auto-status/Plugin.cs:276-302): stale ids are replaced by the first option's id. */
  function Revalidated(c: Configuration, options: seq<StatusOption>): (r: Configuration)
    ensures GetFallbackStatusId(options) == UnsetStatusId ==> r == c
    ensures GetFallbackStatusId(options) != UnsetStatusId ==>
      IsStatusIdValid(options, r.activeStatusId) && IsStatusIdValid(options, r.inactiveStatusId)
    ensures IsStatusIdValid(options, c.activeStatusId) ==> r.activeStatusId == c.activeStatusId
    ensures IsStatusIdValid(options, c.inactiveStatusId) ==> r.inactiveStatusId == c.inactiveStatusId
    ensures r.activeStatusId != c.activeStatusId ==> options != [] && r.activeStatusId == options[0].id
    ensures r.inactiveStatusId != c.inactiveStatusId ==> options != [] && r.inactiveStatusId == options[0].id
    ensures r == c.(activeStatusId := r.activeStatusId, inactiveStatusId := r.inactiveStatusId)
    ensures r != c <==> RepairNeeded(c, options)
  {
    var fallback := GetFallbackStatusId(options);
    if fallback == UnsetStatusId then c
    else
      c.(activeStatusId := if IsStatusIdValid(options, c.activeStatusId) then c.activeStatusId else fallback,
         inactiveStatusId := if IsStatusIdValid(options, c.inactiveStatusId) then c.inactiveStatusId else fallback)
  }

  /** A second migration or a second repair with the same options changes nothing. */
  lemma RepairsAreIdempotent(c: Configuration, options: seq<StatusOption>)
    ensures Migrated(Migrated(c, options), options) == Migrated(c, options)
    ensures Revalidated(Revalidated(c, options), options) == Revalidated(c, options)
    ensures !RepairNeeded(Revalidated(c, options), options)
  {
  }

  /**
   * The constructor's sequence (auto-status/Plugin.cs:56-59): load the options with the stored
   * "show all" flag and repair, migrate, repair again.
   */
  function Startup(stored: Configuration, sheet: Option<seq<SheetRow>>): (r: Configuration)
    ensures r.version >= 1
    ensures r == stored.(version := r.version, activeStatusId := r.activeStatusId, inactiveStatusId := r.inactiveStatusId)
    ensures stored.version >= 1 ==> r == Revalidated(stored, SheetOptions(sheet, stored.showAllStatuses))
  {
    var options := SheetOptions(sheet, stored.showAllStatuses);
    var repaired := Revalidated(stored, options);
    assert Revalidated(repaired, options) == repaired;
    Revalidated(Migrated(repaired, options), options)
  }

  /** After startup the configuration is migrated, and both ids are listed whenever the first option has a real id. */
  lemma StartupLeavesValidIds(stored: Configuration, sheet: Option<seq<SheetRow>>)
    ensures Startup(stored, sheet).version >= 1
    ensures var options := SheetOptions(sheet, stored.showAllStatuses);
      GetFallbackStatusId(options) != UnsetStatusId ==>
        IsStatusIdValid(options, Startup(stored, sheet).activeStatusId) &&
        IsStatusIdValid(options, Startup(stored, sheet).inactiveStatusId)
  {
  }

  /** A first run with no options ends with both ids unset: status application stays a no-op. */
  lemma FreshStartupWithoutOptions(sheet: Option<seq<SheetRow>>)
    requires SheetOptions(sheet, Fresh().showAllStatuses) == []
    ensures Startup(Fresh(), sheet).version == 1
    ensures Startup(Fresh(), sheet).activeStatusId == UnsetStatusId
    ensures Startup(Fresh(), sheet).inactiveStatusId == UnsetStatusId
  {
  }

  /**
   * A first run with options: the migration sets the focused id to the sentinel, and the repair
   * that follows replaces it by the first option, so the focused status is never left unset.
   */
  lemma FreshStartupWithOptions(sheet: Option<seq<SheetRow>>)
    requires var options := SheetOptions(sheet, Fresh().showAllStatuses);
      options != [] && !IsStatusIdValid(options, UnsetStatusId)
    ensures var options := SheetOptions(sheet, Fresh().showAllStatuses);
      var legacy := FindLegacyStatusId(options, Afk);
      Startup(Fresh(), sheet).activeStatusId == options[0].id &&
      Startup(Fresh(), sheet).inactiveStatusId == (if legacy == UnsetStatusId then options[0].id else legacy)
  {
  }
}

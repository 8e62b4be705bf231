/**
 * The plugin object of auto-status/Plugin.cs: the configuration it repairs, the
 * option catalog it caches, the focus debouncer it advances every framework
 * update, and the status application it triggers.
 */
module AutoStatus {
  import opened Wrappers
  import opened Config
  import opened StatusCatalog
  import opened Bootstrap
  import opened FocusDebounce
  import opened StatusApplier

  function Labels(options: seq<StatusOption>): (labels: seq<string>)
    ensures |labels| == |options|
    ensures forall i :: 0 <= i < |options| ==> labels[i] == options[i].labelText
  {
    seq(|options|, i requires 0 <= i < |options| => options[i].labelText)
  }

  class Plugin {
    var configuration: Configuration
    var statusOptions: seq<StatusOption>
    var statusLabels: seq<string>
    const debouncer: FocusDebouncer

    /**
     * `statusLabels` is the label column of `statusOptions` (auto-status/Plugin.cs:230). The
     * constructor and `ReloadStatusOptions` establish it; the other methods leave both fields alone.
     * No operation here reads the labels, so no contract requires it.
     */
    ghost predicate Valid()
      reads this
    {
      statusLabels == Labels(statusOptions)
    }

    /**
     * The configuration part of the constructor (auto-status/Plugin.cs:56-59): take the stored
     * configuration or a fresh one, load the options, migrate and repair.
     */
    constructor (stored: Option<Configuration>, sheet: Option<seq<SheetRow>>)
      ensures Valid() && fresh(debouncer) && debouncer.State() == Initial
      ensures var c := if stored.Some? then stored.value else Fresh();
        statusOptions == SheetOptions(sheet, c.showAllStatuses) && configuration == Startup(c, sheet)
    {
      configuration := if stored.Some? then stored.value else Fresh();
      statusOptions := [];
      statusLabels := [];
      debouncer := new FocusDebouncer();
      new;
      var _ := ReloadStatusOptions(sheet);
      var _ := EnsureDefaults();
      var _ := EnsureStatusIdsValid();
    }

    /** ReloadStatusOptions (auto-status/Plugin.cs:227-232); `saved` is whether the repair saved. */
    method ReloadStatusOptions(sheet: Option<seq<SheetRow>>) returns (saved: bool)
      modifies this`configuration, this`statusOptions, this`statusLabels
      ensures Valid()
      ensures statusOptions == SheetOptions(sheet, old(configuration).showAllStatuses)
      ensures configuration == Revalidated(old(configuration), statusOptions)
      ensures saved == RepairNeeded(old(configuration), statusOptions)
    {
      statusOptions := LoadStatusOptions(sheet, configuration.showAllStatuses);
      statusLabels := Labels(statusOptions);
      saved := EnsureStatusIdsValid();
    }

    /** EnsureDefaults (auto-status/Plugin.cs:263-274); `saved` is whether it saved. */
    method EnsureDefaults() returns (saved: bool)
      modifies this`configuration
      ensures configuration == Migrated(old(configuration), statusOptions)
      ensures saved == (old(configuration).version < 1)
    {
      saved := false;
      if configuration.version >= 1 {
        return;
      }
      configuration := configuration.(activeStatusId := UnsetStatusId);
      configuration := configuration.(inactiveStatusId := FindLegacyStatusId(statusOptions, configuration.statusOnTabOut));
      configuration := configuration.(version := 1);
      saved := true;
    }

    /** EnsureStatusIdsValid (auto-status/Plugin.cs:276-302); `saved` is whether it saved. */
    method EnsureStatusIdsValid() returns (saved: bool)
      modifies this`configuration
      ensures configuration == Revalidated(old(configuration), statusOptions)
      ensures saved == RepairNeeded(old(configuration), statusOptions)
    {
      saved := false;
      var fallback := GetFallbackStatusId(statusOptions);
      if fallback == UnsetStatusId {
        return;
      }
      var changed := false;
      if !IsStatusIdValid(statusOptions, configuration.activeStatusId) {
        configuration := configuration.(activeStatusId := fallback);
        changed := true;
      }
      if !IsStatusIdValid(statusOptions, configuration.inactiveStatusId) {
        configuration := configuration.(inactiveStatusId := fallback);
        changed := true;
      }
      if changed {
        saved := true;
      }
    }

    /** ApplyStatus (auto-status/Plugin.cs:169-214), with `Execute` run inline on the framework thread. */
    method ApplyStatus(isFocused: bool, isManual: bool, host: HostResponse) returns (e: Effect)
      ensures e == Apply(configuration, isFocused, isManual, host)
    {
      var statusId := if isFocused then configuration.activeStatusId else configuration.inactiveStatusId;
      if statusId == UnsetStatusId {
        return Effect([], [], None);
      }
      var lfpJobName := if isFocused then configuration.lfpJobNameFocused else configuration.lfpJobNameUnfocused;
      e := Execute(statusId, lfpJobName, isFocused, isManual, host);
    }

    /** The local function `Execute` of ApplyStatus (auto-status/Plugin.cs:181-205). */
    method Execute(statusId: StatusId, lfpJobName: string, isFocused: bool, isManual: bool, host: HostResponse)
      returns (e: Effect)
      ensures var (calls, ok) := Attempt(statusId, lfpJobName, host);
        e == Effect(calls, Reports(statusId, isFocused, ok, Verbose(configuration, isManual)), Some(ok))
    {
      var calls: seq<HostCall>;
      var ok: bool;
      if statusId == LookingForPartyStatusId {
        var tried := TryLookingForParty(lfpJobName, host);
        calls, ok := tried.0, tried.1;
      } else {
        calls, ok := [TrySetOnlineStatus(statusId)], host.infoProxyAvailable;
      }
      if !ok && statusId == LookingForPartyStatusId {
        calls, ok := calls + [TrySetOnlineStatus(statusId)], host.infoProxyAvailable;
      }
      assert (calls, ok) == Attempt(statusId, lfpJobName, host);
      var outputs: seq<Output> := [];
      if !ok {
        outputs := outputs + [LogWarning(statusId)];
        if configuration.debugFocusLogs || isManual {
          outputs := outputs + [ChatError(statusId)];
        }
      }
      if configuration.debugFocusLogs || isManual {
        outputs := outputs + [ChatStatus(statusId, isFocused, ok)];
      }
      assert outputs == Reports(statusId, isFocused, ok, Verbose(configuration, isManual));
      e := Effect(calls, outputs, Some(ok));
    }

    /** OnFrameworkUpdate (auto-status/Plugin.cs:119-157): advance the debouncer and apply a confirmed focus once. */
    method OnFrameworkUpdate(loggedIn: bool, isFocused: bool, now: int, host: HostResponse) returns (e: Option<Effect>)
      modifies debouncer
      ensures var r := Step(old(debouncer.State()), Sample(loggedIn, isFocused, now));
        debouncer.State() == r.state &&
        e == if r.confirmed.Some? then Some(Apply(configuration, r.confirmed.value, false, host)) else None
    {
      var confirmed := debouncer.Tick(loggedIn, isFocused, now);
      if confirmed.Some? {
        var applied := ApplyStatus(confirmed.value, false, host);
        e := Some(applied);
      } else {
        e := None;
      }
    }
  }
}

/**
 * The status-application decision of auto-status/Plugin.cs (`ApplyStatus` and
 * `TrySetLookingForPartyStatus`, lines 169-225). The two host mechanisms are
 * abstract: `HostResponse` says whether the host accepts the `/lfp` command and
 * whether the online-status proxy can be reached. The log and chat lines the
 * code would write are returned as a trace.
 */
module StatusApplier {
  import opened Wrappers
  import opened Text
  import opened Config
  import opened StatusCatalog

  /** What the host answers during one application. */
  datatype HostResponse = HostResponse(commandAccepted: bool, infoProxyAvailable: bool)

  /** A host mechanism the applier invokes. */
  datatype HostCall =
    | ProcessCommand(command: string)          // CommandManager.ProcessCommand
    | TrySetOnlineStatus(statusId: StatusId)   // the direct status update

  /** The observable reports. */
  datatype Output =
    | LogWarning(statusId: StatusId)                          // Log.Warning
    | ChatError(statusId: StatusId)                           // ChatGui.PrintError
    | ChatStatus(statusId: StatusId, isFocused: bool, ok: bool) // ChatGui.Print

  /** The host calls made, the reports emitted, and the final success flag (None when nothing was attempted). */
  datatype Effect = Effect(calls: seq<HostCall>, outputs: seq<Output>, outcome: Option<bool>)

  function StatusIdFor(c: Configuration, isFocused: bool): StatusId {
    if isFocused then c.activeStatusId else c.inactiveStatusId
  }

  function LfpJobNameFor(c: Configuration, isFocused: bool): string {
    if isFocused then c.lfpJobNameFocused else c.lfpJobNameUnfocused
  }

  /** `$"/lfp {jobName.Trim()}"`. */
  function LfpCommand(jobName: string): string {
    "/lfp " + Trim(jobName)
  }

  /** Chat and the "set status" line are shown only in debug mode or for a manual test. */
  predicate Verbose(c: Configuration, isManual: bool) {
    c.debugFocusLogs || isManual
  }

  /** TrySetLookingForPartyStatus (auto-status/Plugin.cs:216-225): the command is tried only for a non-blank job name. */
  function TryLookingForParty(jobName: string, host: HostResponse): (r: (seq<HostCall>, bool))
    ensures IsBlank(jobName) ==> r == ([], false)
    ensures !IsBlank(jobName) ==> r.0 == [ProcessCommand(LfpCommand(jobName))] && r.1 == host.commandAccepted
    ensures !IsBlank(jobName) ==> var job := Trim(jobName); job != [] && !IsWhiteSpace(job[0]) && !IsWhiteSpace(job[|job| - 1])
  {
    if IsBlank(jobName) then ([], false) else ([ProcessCommand(LfpCommand(jobName))], host.commandAccepted)
  }

  /** The mechanisms tried for a configured id (auto-status/Plugin.cs:183-190) and the final success flag. */
  function Attempt(statusId: StatusId, jobName: string, host: HostResponse): (r: (seq<HostCall>, bool))
    ensures statusId != LookingForPartyStatusId ==> r.0 == [TrySetOnlineStatus(statusId)]
    ensures statusId == LookingForPartyStatusId ==>
      if IsBlank(jobName) then r.0 == [TrySetOnlineStatus(statusId)]
      else if host.commandAccepted then r.0 == [ProcessCommand(LfpCommand(jobName))]
      else r.0 == [ProcessCommand(LfpCommand(jobName)), TrySetOnlineStatus(statusId)]
    ensures r.1 == ((statusId == LookingForPartyStatusId && !IsBlank(jobName) && host.commandAccepted) || host.infoProxyAvailable)
  {
    var (first, ok) :=
      if statusId == LookingForPartyStatusId then TryLookingForParty(jobName, host)
      else ([TrySetOnlineStatus(statusId)], host.infoProxyAvailable);
    if !ok && statusId == LookingForPartyStatusId then (first + [TrySetOnlineStatus(statusId)], host.infoProxyAvailable)
    else (first, ok)
  }

  /** The reports for an attempt (auto-status/Plugin.cs:192-204). */
  function Reports(statusId: StatusId, isFocused: bool, ok: bool, verbose: bool): (outs: seq<Output>)
    ensures LogWarning(statusId) in outs <==> !ok
    ensures forall k :: 0 <= k < |outs| && !outs[k].LogWarning? ==> verbose
    ensures verbose ==> outs != [] && outs[|outs| - 1] == ChatStatus(statusId, isFocused, ok) && (ChatError(statusId) in outs <==> !ok)
    ensures |outs| <= 3
    ensures forall o :: o in outs ==> o.statusId == statusId
    ensures |outs| == (if ok then 0 else 1) + (if verbose then (if ok then 1 else 2) else 0)
  {
    var failure := if ok then [] else [LogWarning(statusId)] + (if verbose then [ChatError(statusId)] else []);
    failure + (if verbose then [ChatStatus(statusId, isFocused, ok)] else [])
  }

  /**
   * ApplyStatus (auto-status/Plugin.cs:169-205). The configured id for the focus state is
   * applied through the `/lfp` command when it is the Looking-for-Party id (falling back to the
   * direct update with the same id) and through the direct update otherwise; failures are logged
   * and chat output is gated by debug mode or a manual trigger.
   */
  function Apply(c: Configuration, isFocused: bool, isManual: bool, host: HostResponse): (e: Effect)
    // the sentinel disables the focus state: no host call and no report
    ensures e.outcome == None <==> StatusIdFor(c, isFocused) == UnsetStatusId
    ensures e.outcome == None ==> e.calls == [] && e.outputs == []
    // which mechanisms are tried, in which order
    ensures var id, job := StatusIdFor(c, isFocused), LfpJobNameFor(c, isFocused);
      id != UnsetStatusId ==>
        if id != LookingForPartyStatusId then e.calls == [TrySetOnlineStatus(id)]
        else if IsBlank(job) then e.calls == [TrySetOnlineStatus(id)]
        else if host.commandAccepted then e.calls == [ProcessCommand(LfpCommand(job))]
        else e.calls == [ProcessCommand(LfpCommand(job)), TrySetOnlineStatus(id)]
    // success means one of the tried mechanisms succeeded
    ensures var id, job := StatusIdFor(c, isFocused), LfpJobNameFor(c, isFocused);
      e.outcome.Some? ==>
        e.outcome.value == ((id == LookingForPartyStatusId && !IsBlank(job) && host.commandAccepted) || host.infoProxyAvailable)
    // a failure is always logged; chat appears only in debug mode or for a manual trigger
    ensures LogWarning(StatusIdFor(c, isFocused)) in e.outputs <==> e.outcome == Some(false)
    ensures forall k :: 0 <= k < |e.outputs| && !e.outputs[k].LogWarning? ==> Verbose(c, isManual)
    ensures var id := StatusIdFor(c, isFocused);
      e.outcome.Some? && Verbose(c, isManual) ==>
        e.outputs != [] && e.outputs[|e.outputs| - 1] == ChatStatus(id, isFocused, e.outcome.value) &&
        (ChatError(id) in e.outputs <==> !e.outcome.value)
    ensures |e.outputs| <= 3
    ensures forall o :: o in e.outputs ==> o.statusId == StatusIdFor(c, isFocused)
    ensures e.outcome.Some? ==>
      |e.outputs| == (if e.outcome.value then 0 else 1) + (if Verbose(c, isManual) then (if e.outcome.value then 1 else 2) else 0)
  {
    var statusId := StatusIdFor(c, isFocused);
    if statusId == UnsetStatusId then Effect([], [], None)
    else
      var (calls, ok) := Attempt(statusId, LfpJobNameFor(c, isFocused), host);
      Effect(calls, Reports(statusId, isFocused, ok, Verbose(c, isManual)), Some(ok))
  }

  /** A first run's configuration applies nothing in either focus state. */
  lemma FreshConfigurationIsInert(isFocused: bool, isManual: bool, host: HostResponse)
    ensures Apply(Fresh(), isFocused, isManual, host) == Effect([], [], None)
  {
  }

  /** An automatic application that succeeds with debug mode off is silent. */
  lemma BackgroundSuccessIsSilent(c: Configuration, isFocused: bool, host: HostResponse)
    requires !c.debugFocusLogs
    requires Apply(c, isFocused, false, host).outcome == Some(true)
    ensures Apply(c, isFocused, false, host).outputs == []
  {
  }

  /** A manual application of a configured id always reports its outcome in chat. */
  lemma ManualApplicationReports(c: Configuration, isFocused: bool, host: HostResponse)
    requires StatusIdFor(c, isFocused) != UnsetStatusId
    ensures var e := Apply(c, isFocused, true, host);
      e.outcome.Some? && ChatStatus(StatusIdFor(c, isFocused), isFocused, e.outcome.value) in e.outputs
  {
  }
}

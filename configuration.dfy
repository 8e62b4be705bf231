/**
 * The persisted plugin configuration (AutoStatus/Configuration.cs): a plain
 * record of preferences with default initialisers. `Save` is persistence and
 * is not modelled here; the methods that would call it report `saved` instead.
 */
module Config {
  type uint32 = x: int | 0 <= x < 0x1_0000_0000
  type int32 = x: int | -0x8000_0000 <= x < 0x8000_0000

  /** Online-status row ids of the game's OnlineStatus sheet. */
  type StatusId = uint32

  /** The sentinel `uint.MaxValue`: "no status configured for this focus state". */
  const UnsetStatusId: StatusId := 0xFFFF_FFFF

  /** The legacy single preference that predates per-focus ids. */
  datatype StatusKind = Afk | Away | Busy

  datatype Configuration = Configuration(
    version: int32,
    statusOnTabOut: StatusKind,
    activeStatusId: StatusId,
    inactiveStatusId: StatusId,
    lfpJobNameFocused: string,
    lfpJobNameUnfocused: string,
    showAllStatuses: bool,
    debugFocusLogs: bool)

  /** `new Configuration()`: the record a first run starts from. */
  function Fresh(): (c: Configuration)
    ensures c.version == 0 && c.statusOnTabOut == Afk
    ensures c.activeStatusId == UnsetStatusId && c.inactiveStatusId == UnsetStatusId
    ensures c.lfpJobNameFocused == "" && c.lfpJobNameUnfocused == ""
    ensures c.showAllStatuses && !c.debugFocusLogs
  {
    Configuration(0, Afk, UnsetStatusId, UnsetStatusId, "", "", true, false)
  }
}

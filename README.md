# Auto-status: a verified model of the focus debouncer and status applier

Auto-status is a game-client plugin. It watches whether the game window has focus and, once a
change of focus has held for two seconds, sets the player's online status. There is one
configured status for "focused" and one for "unfocused". The reserved "Looking for Party" status
(id 23) goes through the `/lfp <job>` chat command, with a direct status update as fallback.
Every other status uses the direct update. The plugin also builds the list of selectable statuses
from the game's OnlineStatus sheet. It migrates a legacy single-preference configuration and
replaces configured ids that the list no longer contains.

This project models that core in Dafny and proves its rules:

- `FocusDebounce` (debounce.dfy) models the per-tick debouncer. It has a `Step` function over
  `DebounceState`, lemmas over whole runs of ticks (`After`, `ConfirmedAt`), and the
  `FocusDebouncer` class whose `Tick` method updates `wasFocused`, `pendingFocus` and
  `pendingFocusSince` in place. Time is the host clock's `DateTime` tick count (100 ns units), so
  the two-second dwell is 20 000 000 ticks.
- `StatusApplier` (applier.dfy) models the application decision. `Apply` returns the host calls
  made, the log and chat reports, and the success flag, all as functions of the configuration
  and an abstract `HostResponse`.
- `StatusCatalog` (catalog.dfy) models the option list. It holds `LoadStatusOptions` (a loop over
  the sheet rows) and the index, id, validity and keyword searches over the options.
- `Bootstrap` (bootstrap.dfy) covers the legacy migration, the stale-id repair and the startup
  sequence, written as functions of the configuration and the options.
- `AutoStatus` (plugin.dfy) holds the `Plugin` class. It owns the configuration, the cached
  options and labels, and the debouncer. Its methods are proved equal to the functions above.
- `Config` (configuration.dfy) models the configuration record and its defaults. `Text`
  (text.dfy) models the .NET string operations used: white space, `Trim`, case-insensitive
  `Contains`, and decimal formatting. `Wrappers` (wrappers.dfy) holds `Option`.

Two details of the repair shape what a first run produces:

- `EnsureStatusIdsValid` does nothing when the first option's id is `uint.MaxValue` or there are
  no options (auto-status/Plugin.cs:278-282). So with an empty catalog the ids keep whatever value
  they had; only the migration sets an id to the sentinel. `Revalidated` keeps that guard.
- On startup the migration sets the focused id to the sentinel, and the repair that runs right
  after it replaces that sentinel with the first option's id (auto-status/Plugin.cs:57-59, 270,
  286-290). It does so whenever the catalog is non-empty and no option carries the sentinel id.
  Under that condition a first run never leaves the focused status unset, as
  `Bootstrap.FreshStartupWithOptions` proves. The settings combo cannot select the sentinel either.

## Model

| member | source | states |
|---|---|---|
| Config.Fresh | AutoStatus/Configuration.cs:8-24 | a fresh configuration has version 0 and the Afk legacy kind, so it is eligible for migration. Both ids are the `uint.MaxValue` sentinel, both job names are the empty string, all statuses are shown and debug is off |
| Text.TrimBounds | auto-status/Plugin.cs:223 | the kept range of `Trim` is bounded by white space on both sides and starts and ends on non-white-space. It is empty exactly when the string is all white space |
| Text.Trim | auto-status/Plugin.cs:218-223 | the result is a slice of the input with only white space cut from either end. It is empty exactly when `IsNullOrWhiteSpace` holds, and otherwise it neither starts nor ends with white space |
| Text.ContainsIgnoreCase | auto-status/Plugin.cs:338 | the result is true exactly when the token occurs at some index of the label, ASCII letters compared without case |
| Text.DecimalString | auto-status/Plugin.cs:257 | the id is rendered as a non-empty string of decimal digits that denotes the id, with no leading zero, and 0 rendered as "0" |
| StatusCatalog.CatalogOf | auto-status/Plugin.cs:244-258 | there are never more options than sheet rows. With "show all" off, every option's id is in the curated set |
| StatusCatalog.CatalogSound | auto-status/Plugin.cs:246-257 | every option comes from a sheet row whose name is not blank and that is curated unless all statuses are shown. Its label is `"{name} (ID {id})"` of that row |
| StatusCatalog.CatalogComplete | auto-status/Plugin.cs:244-258 | every row that passes both filters is listed |
| StatusCatalog.LoadStatusOptions | auto-status/Plugin.cs:234-261 | the loop builds exactly the catalog of the sheet, and nothing when the sheet is missing. With "show all" off, only curated ids appear |
| StatusCatalog.CatalogIdsUnique | auto-status/Plugin.cs:244-257 | unique sheet row ids give unique option ids |
| StatusCatalog.IsStatusIdValid | auto-status/Plugin.cs:309-320 | an id is valid exactly when some option carries it |
| StatusCatalog.SearchFrom | auto-status/Plugin.cs:98-104 | the scan stops at the first index that holds the id, or at the end |
| StatusCatalog.GetStatusIndex | auto-status/Plugin.cs:96-107 | for a listed id the result is the first index holding it. For an unlisted id it is 0 |
| StatusCatalog.GetStatusId | auto-status/Plugin.cs:109-117 | an in-range index gives that option's id, which is valid. An out-of-range index gives the sentinel |
| StatusCatalog.GetFallbackStatusId | auto-status/Plugin.cs:304-307 | the fallback is the first option's id, which is valid. With no options it is the sentinel |
| StatusCatalog.IdRoundTrip | auto-status/Plugin.cs:96-117 | a listed id survives the round trip from id to index to id. An unlisted one comes back as the fallback id |
| StatusCatalog.IndexRoundTrip | auto-status/Plugin.cs:96-117 | with unique ids, an index survives the round trip from index to id to index |
| StatusCatalog.AnyTokenIn | auto-status/Plugin.cs:336-342 | the inner loop finds a match exactly when some token occurs in the label, ignoring case |
| StatusCatalog.FindStatusIdByTokens | auto-status/Plugin.cs:332-346 | the result is the id of the first option whose label holds a token, or the sentinel when none does. It is always a listed id or the sentinel |
| StatusCatalog.FindLegacyStatusId | auto-status/Plugin.cs:322-330 | the result is the first option whose label contains "busy", "away" or "afk" (chosen by the kind), or the sentinel |
| StatusCatalog.IdSuffixLetters | auto-status/Plugin.cs:257 | the only letters in the appended `" (ID n)"` are `I` and `D` |
| StatusCatalog.LabelMatchesOnName | auto-status/Plugin.cs:257 | a word of letters other than i and d is found in a label exactly when it is in the status name. The `(ID n)` suffix never causes a match |
| StatusCatalog.KeywordsArePlain | auto-status/Plugin.cs:326-328 | "busy", "away" and "afk" are such words, so the legacy lookup matches on names only |
| Bootstrap.Migrated | auto-status/Plugin.cs:263-274 | the migration acts only when version < 1. It then sets the focused id to the sentinel, the unfocused id to the legacy lookup, and version to 1. Nothing else changes, and afterwards version >= 1 |
| Bootstrap.Revalidated | auto-status/Plugin.cs:276-302 | with a sentinel fallback nothing changes. Otherwise both ids end valid, valid ids are kept, and replaced ids become the first option's id. The configuration changes (and is saved) exactly when a repair was needed |
| Bootstrap.RepairsAreIdempotent | auto-status/Plugin.cs:263-302 | a second migration or a second repair changes nothing and saves nothing |
| Bootstrap.Startup | auto-status/Plugin.cs:56-59 | startup leaves the configuration at version >= 1 and changes only the version and the two ids. An already migrated configuration is just repaired once |
| Bootstrap.StartupLeavesValidIds | auto-status/Plugin.cs:56-59 | after startup the configuration is migrated. Both ids are listed whenever the first option's id is not the sentinel |
| Bootstrap.FreshStartupWithoutOptions | auto-status/Plugin.cs:56-59 | a first run with no options ends with version 1 and both ids unset |
| Bootstrap.FreshStartupWithOptions | auto-status/Plugin.cs:56-59 | a first run with options ends with the focused id equal to the first option's id. The unfocused id is the Afk match, or the first option when nothing matches |
| FocusDebounce.Step | auto-status/Plugin.cs:119-157 | a pending value always differs from the confirmed one and equals the current sample. Logging out clears both. The first tick after that sets the baseline and confirms nothing. A sample equal to the baseline clears the pending value. A new differing sample becomes pending and starts the dwell clock at its own time. The same pending sample within 2 s changes nothing. A tick confirms exactly when the same differing sample has been pending for at least 2 s, and then the baseline becomes the sample |
| FocusDebounce.AfterNext | auto-status/Plugin.cs:119-157 | the state after k+1 ticks is one step from the state after k ticks |
| FocusDebounce.FlickerNeverConfirms | auto-status/Plugin.cs:136-147 | when each sample differs from the previous one, no tick ever confirms, however the ticks are timed |
| FocusDebounce.PendingHasSteadyHistory | auto-status/Plugin.cs:142-152 | a pending value was sampled, logged in, on every tick since the tick it was first seen on, and `pendingFocusSince` is that tick's time |
| FocusDebounce.ConfirmationNeedsSteadyRun | auto-status/Plugin.cs:142-156 | starting with nothing pending, a confirmation of v happens only after a logged-in run of v samples that spans at least 2 s |
| FocusDebounce.SteadyRunStates | auto-status/Plugin.cs:136-156 | a steady run of a new value goes pending at its first tick, waits, is promoted, and then stays confirmed |
| FocusDebounce.SteadyRunConfirmsOnce | auto-status/Plugin.cs:142-156 | a steady logged-in run of a new value confirms it exactly once: at the first tick at least 2 s after the run began |
| FocusDebounce.NoConfirmationAfterLogout | auto-status/Plugin.cs:121-134 | the tick after a logged-out tick never confirms. It only sets the baseline, with nothing pending |
| FocusDebounce.FocusDebouncer.constructor | auto-status/Plugin.cs:50-52 | the debouncer starts with nothing confirmed and nothing pending |
| FocusDebounce.FocusDebouncer.Tick | auto-status/Plugin.cs:119-155 | the in-place update of the three fields produces the state and the confirmation of `Step` |
| StatusApplier.TryLookingForParty | auto-status/Plugin.cs:216-225 | a blank job name issues no command and fails. Otherwise the one command `"/lfp " + Trim(job)` is issued, its argument is non-empty with no surrounding white space, and the result is the host's answer |
| StatusApplier.Attempt | auto-status/Plugin.cs:183-190 | a non-LFP id uses only the direct update. The LFP id tries the command when the job name is not blank and falls back to the direct update with id 23. Success means one of the tried mechanisms succeeded |
| StatusApplier.Reports | auto-status/Plugin.cs:192-204 | every report carries the attempted id. A failure gives exactly one warning; chat adds one status line, plus one error line on failure. A warning is logged exactly on failure. Chat lines appear only in debug mode or for a manual trigger, and then the status line comes last and the error line appears exactly on failure |
| StatusApplier.Apply | auto-status/Plugin.cs:169-205 | the active id is used when focused and the inactive id otherwise. The sentinel means no host call and no report. It also states the full call order for LFP and other ids, success as "a tried mechanism succeeded", and the gating of the log and chat output. Every report carries the applied id and the number of lines is fixed by the outcome and the gating, so a success logs no warning and prints one status line at most |
| StatusApplier.FreshConfigurationIsInert | AutoStatus/Configuration.cs:14-20 | with the default configuration, applying either focus state does nothing |
| StatusApplier.BackgroundSuccessIsSilent | auto-status/Plugin.cs:192-204 | an automatic success with debug off emits no output at all |
| StatusApplier.ManualApplicationReports | auto-status/Plugin.cs:201-204 | a manual application of a configured id always reports its outcome in chat |
| AutoStatus.Labels | auto-status/Plugin.cs:230 | the label array is the label column of the options |
| AutoStatus.Plugin.constructor | auto-status/Plugin.cs:54-59 | a new plugin loads the options with the stored "show all" flag and then repairs, migrates and repairs again. The labels match the options and the debouncer starts empty |
| AutoStatus.Plugin.ReloadStatusOptions | auto-status/Plugin.cs:227-232 | the options become the sheet's catalog, the labels follow, and the configuration is repaired against the new options. It saves exactly when a repair was needed |
| AutoStatus.Plugin.EnsureDefaults | auto-status/Plugin.cs:263-274 | the configuration becomes its migration, and it saves exactly when version < 1 |
| AutoStatus.Plugin.EnsureStatusIdsValid | auto-status/Plugin.cs:276-302 | the field updates behind the `changed` flag produce the repaired configuration, and it saves exactly when something changed |
| AutoStatus.Plugin.ApplyStatus | auto-status/Plugin.cs:169-214 | the imperative version, which reassigns `ok`, returns exactly `Apply` of the current configuration |
| AutoStatus.Plugin.Execute | auto-status/Plugin.cs:181-205 | the local function's calls, its success flag and its reports are those of `Attempt` and `Reports` |
| AutoStatus.Plugin.OnFrameworkUpdate | auto-status/Plugin.cs:119-157 | the debouncer steps once. Status is applied, non-manually, exactly when the step confirms a focus value, and then once with that value |

## Left out

- Thread marshalling through `Framework.IsInFrameworkUpdateThread` and `Framework.Run`
  (auto-status/Plugin.cs:207-213) is not modelled. `Execute` runs inline; concurrency is out of scope.
- The unsafe `InfoModule`/`InfoProxyDetail` access in `TrySetOnlineStatus` (auto-status/Plugin.cs:349-366)
  is a foreign host call. It is the boolean `HostResponse.infoProxyAvailable`, and the call is recorded as `TrySetOnlineStatus(id)`.
- `CommandManager.ProcessCommand` (auto-status/Plugin.cs:224) is a foreign host call. It is the boolean
  `HostResponse.commandAccepted`, and the call is recorded as `ProcessCommand(text)`.
- `Configuration.Save` and plugin-config loading are persistence I/O. Each repairing method returns `saved`,
  and the stored configuration is a constructor parameter.
- AutoStatus.Plugin.constructor: does not report which of its three repair steps saved. Dafny constructors
  return no values; `ReloadStatusOptions`, `EnsureDefaults` and `EnsureStatusIdsValid` state their saves.
- `Log` and `ChatGui` are I/O. They are the `Output` trace, which records each line's kind, id, focus
  flag and success flag. The message text of each line is not modelled.
- `DateTime.UtcNow`, `ClientState.IsLoggedIn`, `Util.ApplicationIsActivated` and the OnlineStatus sheet
  read are host inputs. They are parameters: an integer tick count, two booleans, and an optional
  sequence of rows.
- Event and command registration, `Dispose`, `ToggleConfigUi` and `OnCommand` (auto-status/Plugin.cs:60-92, 159-167)
  are lifecycle wiring with no logic to verify.
- AutoStatus/SettingsWindow.cs is UI rendering; the only logic in it forwards to members modelled here.
- Text.ContainsIgnoreCase: folds ASCII letters only, because full Unicode case mapping of `OrdinalIgnoreCase`
  is not modelled.
- Text.IsBlank: strings are never null in the model, so the null case of `IsNullOrWhiteSpace` is absent.
- StatusCatalog.CatalogSound: states where each option comes from, not that the sheet order is kept.
  The order is fixed by `CatalogOf` itself, which `LoadStatusOptions` is proved equal to.
- StatusCatalog.GetStatusIndex: returns a `nat`, where the source returns a C# `int`. The source never
  returns a negative index, so nothing is lost.

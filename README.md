# cos-cli: event reducer and command resolver

cos-cli is a command-line client for the COSMIC Wayland compositor. It discovers
the compositor's outputs, workspaces and toplevel windows through the Wayland
registry, mirrors them in a local `AppState`, and then either moves windows to a
workspace (`move`) or activates a window on a seat (`activate`).

This project models the two pieces of sequential logic at its centre:

- **The event reducer** (`src/dispatch.rs`). Every event the compositor delivers
  is a transition on the object graph. `Dispatch.Step` specifies one transition
  and `Dispatch.Run` a roundtrip's worth of them; the class
  `Dispatch.LiveState` is the graph the handlers mutate in place, and each
  handler method is proved to perform exactly `Step`. Proxies are opaque `nat`
  handles compared by equality. A bind request creates a fresh handle, which the
  `Global` event carries as `bound`.
- **The command resolver** (`src/main.rs`). `Resolve` holds the selector check,
  the index and app-id selection, and the workspace, output and seat lookups,
  each ending in a resolved value or in its own `CliError`. `Command` holds the
  bounded wait loop (`AwaitApps`, proved against `Poll`) and the request loop
  (`IssueMoves`). It also holds the `move` and `activate` branches of `main`
  (`Move`, `ActivateCommand`), each proved equal to a specification function of
  its inputs. The inputs are the options and the events delivered by each
  roundtrip. Requests sent to the toplevel manager are returned as a log of
  `MoveToWorkspace` / `Activate` records.

Files: `types.dfy` (handles, records, the `AppState` value), `text.dfy`
(ASCII case folding and substring search), `dispatch.dfy`, `resolve.dfy`,
`command.dfy`.

### Gaps in the event handlers (the model follows the code)

- No registry arm binds `wl_seat` (src/dispatch.rs:31-61 binds only outputs,
  toplevel info, the workspace manager and the toplevel manager), so no
  handler ever fills `seats`.
- The workspace `name` handler (src/dispatch.rs:113-114) pushes onto
  `state.workspaces`. The `AppState` struct (src/main.rs:85-91) has no such
  field; it has `workspace_group`, a list of groups, and that is what `move`
  reads. No handler fills `workspace_group`. The model keeps both: a flat
  `workspaces` list that the handler appends to and nothing reads, and `groups`,
  which stays as the initial state left it. Two consequences are proved.
  `Dispatch.DiscoveryNeverFillsGroupsOrSeats` shows both stay empty after
  discovery. `Command.MoveNeverSucceeds` and `Command.ActivateNeverSucceeds`
  show that neither command can ever send a request, whatever the compositor
  sends.
- Title, app-id and output-enter events for a handle that no app carries
  are ignored without a diagnostic (src/dispatch.rs:184, 189, 194), and so
  they are in the model.

## Model

| member | source | states |
|---|---|---|
| `Dispatch.BindFor` | src/dispatch.rs:31-61 | a bind is issued exactly for `wl_output`, `zcosmic_toplevel_info_v1`, `ext_workspace_manager_v1`, `zcosmic_toplevel_manager_v1`; outputs at version 4, toplevel info at version 1, the other two at the advertised version |
| `Dispatch.FindApp` | src/dispatch.rs:184-194 | the result is the first position whose app has the target handle; none when no app has it |
| `Dispatch.Step` | src/dispatch.rs:16-241 | one event never removes anything: apps keep position and handle, outputs and workspaces only grow at the end, groups and seats are unchanged |
| `Dispatch.UnknownGlobalIsNoOp` | src/dispatch.rs:31-61 | a global with any other interface changes no state and issues no bind |
| `Dispatch.GlobalSetsOnlyManager` | src/dispatch.rs:51-60 | only the toplevel-manager global changes the state, and it only sets the manager handle; the other recognised globals leave the state as it was |
| `Dispatch.OutputNameAppends` | src/dispatch.rs:76-78 | an output name appends exactly one (output, name) pair at the end and changes nothing else; delivered twice it appends a duplicate |
| `Dispatch.ToplevelAppendsBlankApp` | src/dispatch.rs:152-161 | a toplevel announcement grows apps by one blank app with the new handle at the end; earlier apps and all other fields are unchanged |
| `Dispatch.AttributeEventUpdatesFirstMatch` | src/dispatch.rs:183-192 | title and app id events set that field on the first app with the target handle and change no other app or field; with no such app the state is unchanged |
| `Dispatch.OutputEnterAppendsToMatch` | src/dispatch.rs:193-197 | output enter appends the output to the first matching app's outputs only; with no match the state is unchanged |
| `Dispatch.IgnoredEventsAreNoOps` | src/dispatch.rs:83-141 | workspace-manager, workspace-group and toplevel-manager events, and the events every other handler ignores, leave the state unchanged |
| `Dispatch.Run` | src/main.rs:185-186 | a roundtrip applies its events in order; over any sequence of events the app list never shrinks and keeps every app's handle in place, outputs and workspaces only grow at the end, groups and seats stay |
| `Dispatch.BindsOf` | src/dispatch.rs:31-61 | a roundtrip issues at most one bind per event, each for one of the four recognised interfaces |
| `Dispatch.BindsOfAppend` | src/dispatch.rs:31-61 | the binds of two event sequences in a row are the binds of the first followed by those of the second |
| `Dispatch.RunAppend` | src/main.rs:185-186 | two roundtrips in a row have the effect of one roundtrip delivering both event sequences |
| `Dispatch.RunKeepsFirstMatch` | src/dispatch.rs:184-194 | once an app is the first with its handle, it remains the first after any further events |
| `Dispatch.LastWriteWins` | src/dispatch.rs:183-192 | for an existing app, the last title event (or app-id event) for its handle decides its title (or app id) |
| `Dispatch.AttributeSurvives` | src/dispatch.rs:182-239 | a title or app id, once set, survives every event that does not set that attribute for that handle |
| `Dispatch.StepEnters` | src/dispatch.rs:193-197 | one event adds to the first matching app's outputs exactly the output it enters for that handle, if any |
| `Dispatch.OutputsAccumulate` | src/dispatch.rs:193-197 | over a roundtrip an existing app's outputs grow by exactly the outputs entered for its handle, in arrival order, duplicates kept |
| `Dispatch.AnnouncedIsFound` | src/dispatch.rs:152-161 | after announcing a handle no app had, the first app with that handle is the new one at the end |
| `Dispatch.AttributeAfterAnnouncement` | src/dispatch.rs:152-192 | an app announced in a roundtrip takes its title (or app id) from the last title (or app-id) event for its handle later in that roundtrip |
| `Dispatch.TitleAndAppIdCommute` | src/dispatch.rs:183-192 | title and app-id events commute: their arrival order does not change the result |
| `Dispatch.DiscoveryNeverFillsGroupsOrSeats` | src/main.rs:176-186 | from the initial state, after both discovery roundtrips, the workspace groups and the seats are empty whatever events arrive |
| `Dispatch.LiveState.constructor` | src/main.rs:176-182 | the new state is the empty graph: no manager, no groups, outputs, seats or apps |
| `Dispatch.LiveState.OnGlobal` | src/dispatch.rs:16-64 | the registry handler performs exactly `Step` on a global and returns the bind it issues |
| `Dispatch.LiveState.OnOutputName` | src/dispatch.rs:67-79 | the output handler performs exactly `Step` on a name event |
| `Dispatch.LiveState.OnWorkspaceName` | src/dispatch.rs:104-116 | the workspace handler performs exactly `Step` on a name event |
| `Dispatch.LiveState.OnToplevel` | src/dispatch.rs:143-162 | the toplevel-info handler performs exactly `Step` on a toplevel announcement |
| `Dispatch.LiveState.OnTitle` | src/dispatch.rs:183-187 | the in-place find-and-assign performs exactly `Step` on a title event |
| `Dispatch.LiveState.OnAppId` | src/dispatch.rs:188-192 | the in-place find-and-assign performs exactly `Step` on an app-id event |
| `Dispatch.LiveState.OnOutputEnter` | src/dispatch.rs:193-197 | the in-place find-and-push performs exactly `Step` on an output-enter event |
| `Dispatch.LiveState.Dispatch` | src/dispatch.rs:16-241 | routing any event to its handler performs exactly `Step`; only globals issue binds |
| `Dispatch.LiveState.Roundtrip` | src/main.rs:185-186 | dispatching a roundtrip's events in order yields `Run` of them, and the binds issued are exactly `BindsOf` the events: one per recognised global, in arrival order |
| `Text.Lower` | src/main.rs:235 | folding keeps the length and folds each character |
| `Text.Contains` | src/main.rs:235 | true exactly when the needle occurs at some position of the haystack |
| `Text.LowerIdempotent` | src/main.rs:235 | folding twice is folding once |
| `Text.MatchIgnoresCase` | src/main.rs:235 | strings equal up to case match, and folding either side first never changes a match |
| `Resolve.ValidateMove` | src/main.rs:136-146 | `move` fails with its own error when neither selector is given and when both are; it succeeds exactly when one is given, and yields that one |
| `Resolve.SelectByIndex` | src/main.rs:217-222 | index selection yields exactly the app at that position when in range, else "App index not found" with the index |
| `Resolve.FilterByAppId` | src/main.rs:229-239 | the result holds every app whose app id contains the query ignoring case, and only those |
| `Resolve.FilterAppend` | src/main.rs:229-239 | the filter distributes over concatenation, so it keeps the apps' original order |
| `Resolve.AppsWithoutIdNeverMatch` | src/main.rs:233-236 | apps without an app id never match |
| `Resolve.FirstNamed` | src/main.rs:272 | the result is the first workspace position with that name; none when no workspace has it |
| `Resolve.ResolveWorkspace` | src/main.rs:270-290 | an out-of-range group index, and only that, fails with "Workspace group not found"; every other failure is "Workspace not found" with the name; no groups means failure |
| `Resolve.WorkspaceInGroup` | src/main.rs:270-278 | with a valid group index the result is the first workspace in that group with the name, and fails only when the group has none |
| `Resolve.FirstNamedAppend` | src/main.rs:280-284 | the first match in a concatenation is the first match of the front part, else the back part's shifted |
| `Resolve.WorkspaceAcrossGroups` | src/main.rs:279-285 | without a group index the result is the first match in group-then-position order, and fails only when no group has the name |
| `Resolve.ResolveOutput` | src/main.rs:292-303 | an explicit index yields that output or "Output index not found"; without one the first output, or "No outputs found." when there are none |
| `Resolve.ResolveSeat` | src/main.rs:328-338 | an explicit index yields that seat or "Seat index not found"; without one the first seat, or "No seats found." when there are none |
| `Resolve.MoveTargets` | src/main.rs:263-303 | the manager is checked first, then the workspace, then the output, each failure propagated as it is; success happens exactly when all three resolve, and carries the resolved workspace and output |
| `Resolve.MoveRequests` | src/main.rs:305-312 | one move request per app, in order, all to the same workspace and output |
| `Resolve.ResolveActivate` | src/main.rs:316-339 | the manager is checked first, then the app index, then the seat; success happens exactly when all three hold, and is one activate request for that app and seat |
| `Command.Poll` | src/main.rs:228-254 | the loop ends at the first check that matches or whose budget is spent: every earlier check found nothing with time left, the state returned is the one after those checks' roundtrips, and the result is its filter; an empty result means the budget ran out or there was none |
| `Command.PollWithoutBudget` | src/main.rs:245-253 | without a wait budget the loop checks once and performs no roundtrip |
| `Command.PollIsBounded` | src/main.rs:245-249 | with a budget of w seconds the loop performs at most 2w+1 roundtrips |
| `Command.PollFindsAppearance` | src/main.rs:241-250 | a match present at any check the budget allows makes the loop end with a match |
| `Command.PollKeepsGroupsAndSeats` | src/main.rs:250 | the roundtrips of the loop never change the workspace groups or the seats |
| `Command.AwaitApps` | src/main.rs:224-258 | the mutable loop leaves the state, matches and retry count that `Poll` specifies |
| `Command.Wire.Send` | src/main.rs:311 | a request sent to the toplevel manager is appended to the log of sent requests |
| `Command.IssueMoves` | src/main.rs:305-312 | the request loop appends exactly `MoveRequests` to the log |
| `Command.SelectApps` | src/main.rs:217-261 | by index, selection succeeds exactly when the index is in range and yields that one app from the unchanged state; by app id, it succeeds exactly when the wait loop ends with a match and yields the loop's state and matches; failures are "App index not found" or "App id not found" with the key |
| `Command.Move` | src/main.rs:216-315 | the `move` branch returns what `MoveSpec` specifies: selector check, discovery, selection, resolution, then the requests |
| `Command.ActivateCommand` | src/main.rs:316-341 | the `activate` branch returns what `ActivateSpec` specifies: one request, or the first failing check |
| `Command.MoveSelectorCheckedFirst` | src/main.rs:136-146 | a missing or doubled selector fails `move` whatever the compositor sends |
| `Command.MoveManagerCheckedAfterSelection` | src/main.rs:263-267 | from any state, `move` fails for a missing manager exactly when app selection succeeded and left no manager |
| `Command.MoveSendsOnePerApp` | src/main.rs:305-312 | from any state, a successful `move` had a manager and sends one request per selected app, in selection order, all to the workspace and output that state resolves |
| `Command.IndexAndUniqueIdAgree` | src/main.rs:217-258 | selecting by index and by an app id matching exactly that app choose the same apps |
| `Command.MoveNeverSucceeds` | src/main.rs:270-290 | since no handler fills the workspace groups, `move` always fails |
| `Command.ActivateNeverSucceeds` | src/main.rs:328-338 | since no handler fills the seats, `activate` always fails |

## Left out

- The Wayland connection is not modelled: `connect_to_env`, the event queue, `get_registry`, `flush` and transport errors propagated by `?`. A roundtrip is the sequence of events it delivers, given as a parameter, and transport failures are not modelled.
- Child-proxy creation by `event_created_child!` is not modelled (src/dispatch.rs:94-101, 164-170). Only its effect remains: the new handle appears in the `InfoToplevel` event, and workspace-manager events are no-ops.
- Bind internals are not modelled. A bind's new proxy is the `bound` handle of the `Global` event, and nothing ties later events to proxies that were actually bound.
- Argument parsing is not modelled: `pico_args`, the missing `--workspace` error, "Unknown subcommand", the `help` text and the `info` printing. Integer widths of `usize`/`u64` are ignored and options are `nat`.
- Printed progress lines ("Connected to cosmic toplevel manager!", "Move … to …") and `CliError`'s formatting impls are not modelled. Errors are `CliError` constructors carrying the lookup key.
- Poll: wall-clock time is abstract. The time elapsed before the check after k retries is k × 500 ms, so roundtrip latency counts as zero. The loop gives up when that exceeds the budget of w seconds. Where 500·k equals 1000·w exactly, the model therefore performs one more roundtrip than the real loop, whose clock has always advanced a little past it; with `--wait 0` that is one roundtrip where the real loop performs none.
- Text.Lower: case folding is ASCII-only, not Unicode `to_lowercase`.
- The commented-out handlers (output leave, workspace enter/leave, state) are not modelled because the code does not run them.

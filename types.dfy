/** Values shared by the event reducer and the command resolver of cos-cli:
    proxy identities, the per-window record, and the value view of the
    client's object graph (`AppState` in src/main.rs). */
module Types {

  /** A Wayland proxy, reduced to an opaque identity compared by equality. */
  type Handle = nat

  datatype Option<+T> = None | Some(value: T)

  datatype Result<+T, +E> = Success(value: T) | Failure(error: E)

  /** An output as recorded by the output `name` event: proxy and name. */
  datatype Output = Output(handle: Handle, name: string)

  /** A seat: proxy and name. */
  datatype Seat = Seat(handle: Handle, name: string)

  /** A workspace as recorded by the workspace `name` event: name and proxy. */
  datatype Workspace = Workspace(name: string, handle: Handle)

  /** One toplevel window. Every attribute is optional until its event arrives. */
  datatype App = App(handle: Handle, title: Option<string>, appId: Option<string>, outputs: seq<Handle>)

  /** The record appended when a toplevel is announced: no attribute known yet. */
  function NewApp(h: Handle): App {
    App(h, None, None, [])
  }

  /** The value of the client's object graph.
      `groups` is the `workspace_group` field that the commands read;
      `workspaces` is the flat list that the workspace `name` handler pushes to
      (a list the `AppState` struct does not declare and nothing reads). */
  datatype AppState = AppState(
    groups: seq<seq<Workspace>>,
    workspaces: seq<Workspace>,
    manager: Option<Handle>,
    outputs: seq<Output>,
    seats: seq<Seat>,
    apps: seq<App>)

  /** The state `main` builds before the registry is requested. */
  function Initial(): AppState {
    AppState([], [], None, [], [], [])
  }

  /** The two requests the commands send to the toplevel manager. */
  datatype Request =
    | MoveToWorkspace(toplevel: Handle, workspace: Handle, output: Handle)
    | Activate(toplevel: Handle, seat: Handle)
}

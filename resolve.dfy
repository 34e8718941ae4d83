/** The command resolver of cos-cli (src/main.rs): the checks and lookups that
    turn the `move` and `activate` options into live handles, each ending in a
    resolved value or in its own error. */
module Resolve {
  import opened Types
  import opened Text

  /** The errors the commands end with, one per message of `main`. */
  datatype CliError =
    | SelectorMissing              // neither --app-id nor --index given to `move`
    | SelectorConflict             // both --app-id and --index given to `move`
    | AppIndexNotFound(index: nat)
    | AppIdNotFound(query: string)
    | MoveUnsupported              // no toplevel manager: "workspace management protocol"
    | ActivateUnsupported          // no toplevel manager: "toplevel management protocol"
    | GroupNotFound(group: nat)
    | WorkspaceNotFound(name: string)
    | OutputIndexNotFound(output: nat)
    | NoOutputs
    | SeatIndexNotFound(seat: nat)
    | NoSeats

  /** How `move` picks its apps: by position, or by app-id substring. */
  datatype Selector = ByIndex(index: nat) | ById(query: string)

  /** The options of `move`; `wait` is in seconds. */
  datatype MoveArgs = MoveArgs(
    appId: Option<string>,
    appIndex: Option<nat>,
    workspaceName: string,
    groupIndex: Option<nat>,
    outputIndex: Option<nat>,
    wait: Option<nat>)

  /** The options of `activate`. */
  datatype ActivateArgs = ActivateArgs(appIndex: nat, seatIndex: Option<nat>)

  /** `move` needs exactly one of --app-id and --index. */
  function ValidateMove(appId: Option<string>, appIndex: Option<nat>): (r: Result<Selector, CliError>)
    ensures r == Failure(SelectorMissing) <==> appId.None? && appIndex.None?
    ensures r == Failure(SelectorConflict) <==> appId.Some? && appIndex.Some?
    ensures r.Success? <==> (appId.Some? != appIndex.Some?)
    ensures r.Success? ==>
      (appIndex.Some? && r.value == ByIndex(appIndex.value)) || (appId.Some? && r.value == ById(appId.value))
  {
    if appId.None? && appIndex.None? then Failure(SelectorMissing)
    else if appId.Some? && appIndex.Some? then Failure(SelectorConflict)
    else if appIndex.Some? then Success(ByIndex(appIndex.value))
    else Success(ById(appId.value))
  }

  /** Selection by index: the one app at that position. */
  function SelectByIndex(apps: seq<App>, i: nat): (r: Result<seq<App>, CliError>)
    ensures r.Success? <==> i < |apps|
    ensures r.Success? ==> r.value == [apps[i]]
    ensures r.Failure? ==> r.error == AppIndexNotFound(i)
  {
    if i < |apps| then Success([apps[i]]) else Failure(AppIndexNotFound(i))
  }

  /** An app matches when it has an app id that contains the query, ignoring case. */
  predicate MatchesAppId(app: App, query: string) {
    app.appId.Some? && ContainsIgnoringCase(app.appId.value, query)
  }

  /** Selection by app id: the matching apps, in their original order. */
  function FilterByAppId(apps: seq<App>, query: string): (r: seq<App>)
    ensures |r| <= |apps|
    ensures forall a :: a in r ==> a in apps && MatchesAppId(a, query)
    ensures forall i :: 0 <= i < |apps| && MatchesAppId(apps[i], query) ==> apps[i] in r
  {
    if apps == [] then []
    else if MatchesAppId(apps[0], query) then [apps[0]] + FilterByAppId(apps[1..], query)
    else FilterByAppId(apps[1..], query)
  }

  /** The filter works element by element, so it keeps the original order. */
  lemma {:induction false} FilterAppend(a: seq<App>, b: seq<App>, query: string)
    ensures FilterByAppId(a + b, query) == FilterByAppId(a, query) + FilterByAppId(b, query)
    decreases |a|
  {
    if a == [] {
      assert a + b == b;
    } else {
      assert (a + b)[1..] == a[1..] + b;
      FilterAppend(a[1..], b, query);
    }
  }

  /** Apps without an app id never match, whatever the query. */
  lemma {:induction false} AppsWithoutIdNeverMatch(apps: seq<App>, query: string)
    requires forall i :: 0 <= i < |apps| ==> apps[i].appId.None?
    ensures FilterByAppId(apps, query) == []
    decreases |apps|
  {
    if apps != [] {
      AppsWithoutIdNeverMatch(apps[1..], query);
    }
  }

  /** Workspace `p` of `ws` is named `name`. */
  ghost predicate NamedAt(ws: seq<Workspace>, name: string, p: int) {
    0 <= p < |ws| && ws[p].name == name
  }

  /** The position of the first workspace named `name` (`iter().find`). */
  function FirstNamed(ws: seq<Workspace>, name: string): (r: Option<nat>)
    ensures r.Some? ==> NamedAt(ws, name, r.value)
    ensures r.Some? ==> forall q :: 0 <= q < r.value ==> !NamedAt(ws, name, q)
    ensures r.None? ==> forall q :: !NamedAt(ws, name, q)
  {
    if ws == [] then None
    else if ws[0].name == name then Some(0)
    else match FirstNamed(ws[1..], name)
      case Some(p) =>
        assert NamedAt(ws[1..], name, p);
        assert forall q :: NamedAt(ws, name, q) && q > 0 ==> NamedAt(ws[1..], name, q - 1);
        Some(p + 1)
      case None =>
        assert forall q :: NamedAt(ws, name, q) ==> NamedAt(ws[1..], name, q - 1);
        None
  }

  /** All workspaces of all groups, group by group (`flat_map`). */
  function Flatten(groups: seq<seq<Workspace>>): seq<Workspace> {
    if groups == [] then [] else groups[0] + Flatten(groups[1..])
  }

  /** The workspace with that name, searched in one group or in all groups in order. */
  function ResolveWorkspace(groups: seq<seq<Workspace>>, name: string, groupIndex: Option<nat>): (r: Result<Handle, CliError>)
    ensures (r.Failure? && r.error.GroupNotFound?) <==> groupIndex.Some? && groupIndex.value >= |groups|
    ensures r.Failure? && r.error.GroupNotFound? ==> r.error.group == groupIndex.value
    ensures r.Failure? ==> r.error.GroupNotFound? || r.error == WorkspaceNotFound(name)
    ensures groups == [] ==> r.Failure?
  {
    match groupIndex
    case Some(g) =>
      if g < |groups| then
        (match FirstNamed(groups[g], name)
         case Some(p) => Success(groups[g][p].handle)
         case None => Failure(WorkspaceNotFound(name)))
      else Failure(GroupNotFound(g))
    case None =>
      var flat := Flatten(groups);
      match FirstNamed(flat, name)
      case Some(p) => Success(flat[p].handle)
      case None => Failure(WorkspaceNotFound(name))
  }

  /** Within one valid group, resolution finds exactly the first workspace with that name. */
  lemma WorkspaceInGroup(groups: seq<seq<Workspace>>, name: string, g: nat)
    requires g < |groups|
    ensures var r := ResolveWorkspace(groups, name, Some(g));
      && (r.Success? <==> exists p :: NamedAt(groups[g], name, p))
      && (r.Success? ==> exists p :: NamedAt(groups[g], name, p)
                                  && (forall q :: 0 <= q < p ==> !NamedAt(groups[g], name, q))
                                  && r.value == groups[g][p].handle)
  {
  }

  /** `p` is the first workspace named `name` in group `g`, and no earlier group has one. */
  ghost predicate FirstInGroups(groups: seq<seq<Workspace>>, name: string, g: int, p: int) {
    && 0 <= g < |groups| && NamedAt(groups[g], name, p)
    && (forall q :: 0 <= q < p ==> !NamedAt(groups[g], name, q))
    && (forall g', q :: 0 <= g' < g ==> !NamedAt(groups[g'], name, q))
  }

  lemma {:induction false} FirstNamedAppend(a: seq<Workspace>, b: seq<Workspace>, name: string)
    ensures FirstNamed(a + b, name) ==
      match FirstNamed(a, name)
      case Some(p) => Some(p)
      case None => match FirstNamed(b, name) case Some(p) => Some(|a| + p) case None => None
  {
    var ab := a + b;
    match FirstNamed(a, name)
    case Some(p) =>
      assert NamedAt(ab, name, p);
      var k := FirstNamed(ab, name).value;
      assert k <= p;
      assert NamedAt(a, name, k);
    case None =>
      forall q | 0 <= q < |a| ensures !NamedAt(ab, name, q) {
        assert !NamedAt(a, name, q);
      }
      match FirstNamed(b, name)
      case Some(p) =>
        assert NamedAt(ab, name, |a| + p);
        var k := FirstNamed(ab, name).value;
        assert NamedAt(b, name, k - |a|);
      case None =>
        if FirstNamed(ab, name).Some? {
          var k := FirstNamed(ab, name).value;
          assert NamedAt(b, name, k - |a|);
        }
  }

  /** Without a group index, resolution finds the first workspace with that
      name in group-then-position order, and fails only when no group has one. */
  lemma {:induction false} WorkspaceAcrossGroups(groups: seq<seq<Workspace>>, name: string)
    ensures var r := ResolveWorkspace(groups, name, None);
      && (r.Success? <==> exists g, p :: 0 <= g < |groups| && NamedAt(groups[g], name, p))
      && (r.Success? ==> exists g, p :: FirstInGroups(groups, name, g, p) && r.value == groups[g][p].handle)
    decreases |groups|
  {
    if groups != [] {
      var rest := groups[1..];
      WorkspaceAcrossGroups(rest, name);
      FirstNamedAppend(groups[0], Flatten(rest), name);
      var r := ResolveWorkspace(groups, name, None);
      var rr := ResolveWorkspace(rest, name, None);
      match FirstNamed(groups[0], name)
      case Some(p) =>
        assert FirstInGroups(groups, name, 0, p);
      case None =>
        assert r == rr;
        if rr.Success? {
          var g, p :| FirstInGroups(rest, name, g, p) && rr.value == rest[g][p].handle;
          assert rest[g] == groups[g + 1];
          forall g', q | 0 <= g' < g + 1 ensures !NamedAt(groups[g'], name, q) {
            if g' > 0 { assert groups[g'] == rest[g' - 1]; }
          }
          assert FirstInGroups(groups, name, g + 1, p);
        } else {
          forall g, p | 0 <= g < |groups| ensures !NamedAt(groups[g], name, p) {
            if g > 0 { assert groups[g] == rest[g - 1]; }
          }
        }
    }
  }

  /** The output to move to: the one at the given index, or the first one. */
  function ResolveOutput(outputs: seq<Output>, index: Option<nat>): (r: Result<Handle, CliError>)
    ensures index.Some? ==> (r.Success? <==> index.value < |outputs|)
    ensures index.Some? && r.Success? ==> r.value == outputs[index.value].handle
    ensures index.Some? && r.Failure? ==> r.error == OutputIndexNotFound(index.value)
    ensures index.None? ==> (r.Success? <==> outputs != [])
    ensures index.None? && r.Success? ==> r.value == outputs[0].handle
    ensures index.None? && r.Failure? ==> r.error == NoOutputs
  {
    match index
    case Some(i) => if i < |outputs| then Success(outputs[i].handle) else Failure(OutputIndexNotFound(i))
    case None => if outputs == [] then Failure(NoOutputs) else Success(outputs[0].handle)
  }

  /** The seat to activate on: the one at the given index, or the first one. */
  function ResolveSeat(seats: seq<Seat>, index: Option<nat>): (r: Result<Handle, CliError>)
    ensures index.Some? ==> (r.Success? <==> index.value < |seats|)
    ensures index.Some? && r.Success? ==> r.value == seats[index.value].handle
    ensures index.Some? && r.Failure? ==> r.error == SeatIndexNotFound(index.value)
    ensures index.None? ==> (r.Success? <==> seats != [])
    ensures index.None? && r.Success? ==> r.value == seats[0].handle
    ensures index.None? && r.Failure? ==> r.error == NoSeats
  {
    match index
    case Some(i) => if i < |seats| then Success(seats[i].handle) else Failure(SeatIndexNotFound(i))
    case None => if seats == [] then Failure(NoSeats) else Success(seats[0].handle)
  }

  /** What `move` needs once its apps are chosen, checked in this order: the
      toplevel manager, the workspace, the output. */
  function MoveTargets(s: AppState, args: MoveArgs): (r: Result<(Handle, Handle), CliError>)
    ensures s.manager.None? <==> r == Failure(MoveUnsupported)
    ensures s.manager.Some? && ResolveWorkspace(s.groups, args.workspaceName, args.groupIndex).Failure? ==>
              r == Failure(ResolveWorkspace(s.groups, args.workspaceName, args.groupIndex).error)
    ensures s.manager.Some? && ResolveWorkspace(s.groups, args.workspaceName, args.groupIndex).Success?
              && ResolveOutput(s.outputs, args.outputIndex).Failure? ==>
              r == Failure(ResolveOutput(s.outputs, args.outputIndex).error)
    ensures r.Success? <==>
      && s.manager.Some?
      && ResolveWorkspace(s.groups, args.workspaceName, args.groupIndex).Success?
      && ResolveOutput(s.outputs, args.outputIndex).Success?
    ensures r.Success? ==>
      && ResolveWorkspace(s.groups, args.workspaceName, args.groupIndex) == Success(r.value.0)
      && ResolveOutput(s.outputs, args.outputIndex) == Success(r.value.1)
  {
    if s.manager.None? then Failure(MoveUnsupported)
    else match ResolveWorkspace(s.groups, args.workspaceName, args.groupIndex)
      case Failure(e) => Failure(e)
      case Success(ws) =>
        match ResolveOutput(s.outputs, args.outputIndex)
        case Failure(e) => Failure(e)
        case Success(out) => Success((ws, out))
  }

  /** The requests `move` sends: one per selected app, in selection order,
      all to the same workspace and output. */
  function MoveRequests(apps: seq<App>, ws: Handle, out: Handle): (r: seq<Request>)
    ensures |r| == |apps|
    ensures forall i :: 0 <= i < |apps| ==> r[i] == MoveToWorkspace(apps[i].handle, ws, out)
  {
    if apps == [] then [] else [MoveToWorkspace(apps[0].handle, ws, out)] + MoveRequests(apps[1..], ws, out)
  }

  /** `activate`, checked in this order: the toplevel manager, the app index, the seat. */
  function ResolveActivate(s: AppState, args: ActivateArgs): (r: Result<Request, CliError>)
    ensures s.manager.None? <==> r == Failure(ActivateUnsupported)
    ensures s.manager.Some? && args.appIndex >= |s.apps| <==> r == Failure(AppIndexNotFound(args.appIndex))
    ensures s.manager.Some? && args.appIndex < |s.apps| && ResolveSeat(s.seats, args.seatIndex).Failure? ==>
              r == Failure(ResolveSeat(s.seats, args.seatIndex).error)
    ensures r.Success? <==> s.manager.Some? && args.appIndex < |s.apps| && ResolveSeat(s.seats, args.seatIndex).Success?
    ensures r.Success? ==>
      && args.appIndex < |s.apps|
      && ResolveSeat(s.seats, args.seatIndex).Success?
      && r.value == Activate(s.apps[args.appIndex].handle, ResolveSeat(s.seats, args.seatIndex).value)
  {
    if s.manager.None? then Failure(ActivateUnsupported)
    else if args.appIndex >= |s.apps| then Failure(AppIndexNotFound(args.appIndex))
    else match ResolveSeat(s.seats, args.seatIndex)
      case Failure(e) => Failure(e)
      case Success(seat) => Success(Activate(s.apps[args.appIndex].handle, seat))
  }
}

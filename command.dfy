/** The `move` and `activate` branches of `main` in src/main.rs: discovery by
    two roundtrips, app selection with the bounded wait loop, resolution, and
    the requests sent to the toplevel manager. Each command is a method proved
    against a specification function of its inputs, the events the compositor
    delivers in each roundtrip. */
module Command {
  import opened Types
  import opened Dispatch
  import opened Resolve

  /** The connection as far as the commands use it: the log of requests sent
      to the toplevel manager. */
  class Wire {
    var sent: seq<Request>

    constructor ()
      ensures sent == []
    {
      sent := [];
    }

    method Send(q: Request)
      modifies this
      ensures sent == old(sent) + [q]
    {
      sent := sent + [q];
    }
  }

  /** The pause between two checks of the wait loop. */
  const PollIntervalMs := 500

  /** The events delivered by the `k`-th roundtrip of the wait loop; none once
      the given batches are used up. */
  function Batch(later: seq<seq<Event>>, k: nat): seq<Event> {
    if k < |later| then later[k] else []
  }

  /** Whether the wait loop gives up at the check that follows `k` retries:
      always without a budget, otherwise once the time slept exceeds it. */
  predicate Expired(wait: Option<nat>, k: nat) {
    wait.None? || PollIntervalMs * k > 1000 * wait.value
  }

  /** The budget-derived bound on the number of retries. */
  function RetryMeasure(wait: Option<nat>, k: nat): nat {
    if wait.Some? && k <= 2 * wait.value + 1 then 2 * wait.value + 1 - k else 0
  }

  /** The outcome of the wait loop: the state it left, the apps it matched and
      the number of roundtrips it performed. */
  datatype Polled = Polled(state: AppState, apps: seq<App>, retries: nat)

  /** The wait loop from its `k`-th check on. It stops at the first check
      that finds a match or whose budget is spent: every earlier check found
      nothing with time left, and the state it returns is the one after the
      roundtrips of those earlier checks. */
  function Poll(s: AppState, query: string, wait: Option<nat>, later: seq<seq<Event>>, k: nat): (r: Polled)
    ensures r.apps == FilterByAppId(r.state.apps, query)
    ensures k <= r.retries
    ensures r.apps == [] ==> Expired(wait, r.retries)
    ensures r.state == StateAt(s, later, k, r.retries)
    ensures forall j :: k <= j < r.retries ==>
              FilterByAppId(StateAt(s, later, k, j).apps, query) == [] && !Expired(wait, j)
    decreases RetryMeasure(wait, k)
  {
    var apps := FilterByAppId(s.apps, query);
    if apps != [] || Expired(wait, k) then Polled(s, apps, k)
    else
      var next := Run(s, Batch(later, k));
      var r := Poll(next, query, wait, later, k + 1);
      assert forall j :: k < j ==> StateAt(s, later, k, j) == StateAt(next, later, k + 1, j);
      assert StateAt(s, later, k, k) == s;
      r
  }

  /** The state at the `j`-th check, had the loop not stopped before it. */
  function StateAt(s: AppState, later: seq<seq<Event>>, k: nat, j: nat): AppState
    decreases j - k
  {
    if j <= k then s else StateAt(Run(s, Batch(later, k)), later, k + 1, j)
  }

  /** Without a budget the loop checks once and performs no roundtrip. */
  lemma PollWithoutBudget(s: AppState, query: string, later: seq<seq<Event>>)
    ensures Poll(s, query, None, later, 0) == Polled(s, FilterByAppId(s.apps, query), 0)
  {
  }

  /** With a budget of `w` seconds the loop performs at most `2w + 1` roundtrips. */
  lemma {:induction false} PollIsBounded(s: AppState, query: string, w: nat, later: seq<seq<Event>>, k: nat)
    requires k <= 2 * w + 1
    ensures Poll(s, query, Some(w), later, k).retries <= 2 * w + 1
    decreases RetryMeasure(Some(w), k)
  {
    if FilterByAppId(s.apps, query) == [] && !Expired(Some(w), k) {
      PollIsBounded(Run(s, Batch(later, k)), query, w, later, k + 1);
    }
  }

  /** If a matching app is present at some check the budget still allows, the
      loop ends with a non-empty match. */
  lemma {:induction false} PollFindsAppearance(s: AppState, query: string, w: nat, later: seq<seq<Event>>, k: nat, j: nat)
    requires k <= j && PollIntervalMs * j <= 1000 * w
    requires FilterByAppId(StateAt(s, later, k, j).apps, query) != []
    ensures Poll(s, query, Some(w), later, k).apps != []
    decreases j - k
  {
    if k < j && FilterByAppId(s.apps, query) == [] {
      PollFindsAppearance(Run(s, Batch(later, k)), query, w, later, k + 1, j);
    }
  }

  /** The loop never touches the workspace groups or the seats. */
  lemma {:induction false} PollKeepsGroupsAndSeats(s: AppState, query: string, wait: Option<nat>, later: seq<seq<Event>>, k: nat)
    ensures Poll(s, query, wait, later, k).state.groups == s.groups
    ensures Poll(s, query, wait, later, k).state.seats == s.seats
    decreases RetryMeasure(wait, k)
  {
    if FilterByAppId(s.apps, query) == [] && !Expired(wait, k) {
      PollKeepsGroupsAndSeats(Run(s, Batch(later, k)), query, wait, later, k + 1);
    }
  }

  /** The wait loop of `move --app-id`: check, and while nothing matches and
      the budget allows, sleep, roundtrip and check again. */
  method AwaitApps(st: LiveState, query: string, wait: Option<nat>, later: seq<seq<Event>>)
    returns (apps: seq<App>, retries: nat)
    modifies st
    ensures var p := Poll(old(st.View()), query, wait, later, 0);
      st.View() == p.state && apps == p.apps && retries == p.retries
  {
    retries := 0;
    apps := FilterByAppId(st.apps, query);
    while apps == [] && !Expired(wait, retries)
      invariant Poll(old(st.View()), query, wait, later, 0) == Poll(st.View(), query, wait, later, retries)
      invariant apps == FilterByAppId(st.apps, query)
      decreases RetryMeasure(wait, retries)
    {
      var _ := st.Roundtrip(Batch(later, retries));
      retries := retries + 1;
      apps := FilterByAppId(st.apps, query);
    }
  }

  /** The `for app in apps_to_move` loop: one move request per app. */
  method IssueMoves(wire: Wire, apps: seq<App>, ws: Handle, out: Handle)
    modifies wire
    ensures wire.sent == old(wire.sent) + MoveRequests(apps, ws, out)
  {
    for i := 0 to |apps|
      invariant wire.sent == old(wire.sent) + MoveRequests(apps[..i], ws, out)
    {
      assert MoveRequests(apps[..i + 1], ws, out) == MoveRequests(apps[..i], ws, out) + [MoveToWorkspace(apps[i].handle, ws, out)];
      wire.Send(MoveToWorkspace(apps[i].handle, ws, out));
    }
    assert apps[..|apps|] == apps;
  }

  /** The state after the two discovery roundtrips. */
  function Discovered(first: seq<Event>, second: seq<Event>): AppState {
    Run(Run(Initial(), first), second)
  }

  /** App selection for `move`: the state it leaves and the apps it chose. */
  function SelectApps(s: AppState, sel: Selector, wait: Option<nat>, later: seq<seq<Event>>): (r: Result<(AppState, seq<App>), CliError>)
    ensures r.Success? ==> r.value.1 != []
    ensures r.Failure? ==> r.error == (match sel case ByIndex(i) => AppIndexNotFound(i) case ById(q) => AppIdNotFound(q))
    ensures sel.ById? && r.Success? ==> forall a :: a in r.value.1 ==> MatchesAppId(a, sel.query)
    ensures sel.ByIndex? ==> (r.Success? <==> sel.index < |s.apps|)
    ensures sel.ByIndex? && r.Success? ==> r.value == (s, [s.apps[sel.index]])
    ensures sel.ById? ==>
              var p := Poll(s, sel.query, wait, later, 0);
              && (r.Success? <==> p.apps != [])
              && (r.Success? ==> r.value == (p.state, p.apps))
  {
    match sel
    case ByIndex(i) =>
      (match SelectByIndex(s.apps, i)
       case Success(apps) => Success((s, apps))
       case Failure(e) => Failure(e))
    case ById(q) =>
      var p := Poll(s, q, wait, later, 0);
      if p.apps == [] then Failure(AppIdNotFound(q)) else Success((p.state, p.apps))
  }

  /** `move` after discovery: select from state `s`, resolve, send. */
  function MoveFrom(s: AppState, sel: Selector, args: MoveArgs, later: seq<seq<Event>>): Result<seq<Request>, CliError> {
    match SelectApps(s, sel, args.wait, later)
    case Failure(e) => Failure(e)
    case Success((s', apps)) =>
      match MoveTargets(s', args)
      case Failure(e) => Failure(e)
      case Success((ws, out)) => Success(MoveRequests(apps, ws, out))
  }

  /** `move`: validate the selector, discover, then select, resolve and send. */
  function MoveSpec(args: MoveArgs, first: seq<Event>, second: seq<Event>, later: seq<seq<Event>>): Result<seq<Request>, CliError> {
    match ValidateMove(args.appId, args.appIndex)
    case Failure(e) => Failure(e)
    case Success(sel) => MoveFrom(Discovered(first, second), sel, args, later)
  }

  /** The `move` branch of `main`. On success the result is the log of the
      requests sent. */
  method Move(args: MoveArgs, first: seq<Event>, second: seq<Event>, later: seq<seq<Event>>)
    returns (r: Result<seq<Request>, CliError>)
    ensures r == MoveSpec(args, first, second, later)
  {
    var sel := ValidateMove(args.appId, args.appIndex);
    if sel.Failure? {
      return Failure(sel.error);
    }
    var st := new LiveState();
    var _ := st.Roundtrip(first);
    var _ := st.Roundtrip(second);
    ghost var discovered := st.View();
    assert discovered == Discovered(first, second);
    var apps: seq<App>;
    match sel.value {
      case ByIndex(i) =>
        var chosen := SelectByIndex(st.apps, i);
        if chosen.Failure? {
          return Failure(chosen.error);
        }
        apps := chosen.value;
      case ById(q) =>
        var retries;
        apps, retries := AwaitApps(st, q, args.wait, later);
        if apps == [] {
          return Failure(AppIdNotFound(q));
        }
    }
    assert SelectApps(discovered, sel.value, args.wait, later) == Success((st.View(), apps));
    var targets := MoveTargets(st.View(), args);
    if targets.Failure? {
      return Failure(targets.error);
    }
    var wire := new Wire();
    IssueMoves(wire, apps, targets.value.0, targets.value.1);
    assert wire.sent == MoveRequests(apps, targets.value.0, targets.value.1);
    r := Success(wire.sent);
  }

  /** `activate`: discover, resolve, send one request. */
  function ActivateSpec(args: ActivateArgs, first: seq<Event>, second: seq<Event>): Result<seq<Request>, CliError> {
    match ResolveActivate(Discovered(first, second), args)
    case Failure(e) => Failure(e)
    case Success(q) => Success([q])
  }

  /** The `activate` branch of `main`. On success the result is the log of the
      requests sent. */
  method ActivateCommand(args: ActivateArgs, first: seq<Event>, second: seq<Event>)
    returns (r: Result<seq<Request>, CliError>)
    ensures r == ActivateSpec(args, first, second)
  {
    var st := new LiveState();
    var _ := st.Roundtrip(first);
    var _ := st.Roundtrip(second);
    assert st.View() == Discovered(first, second);
    var q := ResolveActivate(st.View(), args);
    if q.Failure? {
      return Failure(q.error);
    }
    var wire := new Wire();
    wire.Send(q.value);
    assert wire.sent == [q.value];
    r := Success(wire.sent);
  }

  // ---------------------------------------------------------------------
  // Properties of the commands

  /** A bad `move` selector is rejected whatever the compositor would send:
      the check happens before any connection. */
  lemma MoveSelectorCheckedFirst(args: MoveArgs, first: seq<Event>, second: seq<Event>, later: seq<seq<Event>>)
    ensures args.appId.None? && args.appIndex.None? ==> MoveSpec(args, first, second, later) == Failure(SelectorMissing)
    ensures args.appId.Some? && args.appIndex.Some? ==> MoveSpec(args, first, second, later) == Failure(SelectorConflict)
  {
  }

  /** A missing toplevel manager fails `move` only once app selection has succeeded. */
  lemma MoveManagerCheckedAfterSelection(s: AppState, sel: Selector, args: MoveArgs, later: seq<seq<Event>>)
    ensures MoveFrom(s, sel, args, later) == Failure(MoveUnsupported) <==>
      && SelectApps(s, sel, args.wait, later).Success?
      && SelectApps(s, sel, args.wait, later).value.0.manager.None?
  {
  }

  /** A successful `move` sends one request per selected app, in selection
      order, all to the same workspace and output, which the state left by
      selection resolves. */
  lemma MoveSendsOnePerApp(s: AppState, sel: Selector, args: MoveArgs, later: seq<seq<Event>>)
    requires MoveFrom(s, sel, args, later).Success?
    ensures var reqs := MoveFrom(s, sel, args, later).value;
      var chosen := SelectApps(s, sel, args.wait, later);
      && chosen.Success? && |reqs| == |chosen.value.1|
      && var t := MoveTargets(chosen.value.0, args);
         && t.Success?
         && chosen.value.0.manager.Some?
         && ResolveWorkspace(chosen.value.0.groups, args.workspaceName, args.groupIndex) == Success(t.value.0)
         && ResolveOutput(chosen.value.0.outputs, args.outputIndex) == Success(t.value.1)
         && forall i :: 0 <= i < |reqs| ==> reqs[i] == MoveToWorkspace(chosen.value.1[i].handle, t.value.0, t.value.1)
  {
  }

  /** Selecting by index and selecting by an app id that matches exactly that
      app (without waiting) choose the same apps from the same state. */
  lemma IndexAndUniqueIdAgree(s: AppState, i: nat, q: string, later: seq<seq<Event>>)
    requires i < |s.apps| && FilterByAppId(s.apps, q) == [s.apps[i]]
    ensures SelectApps(s, ByIndex(i), None, later) == SelectApps(s, ById(q), None, later)
  {
  }

  /** No event fills the workspace groups, so after discovery from an empty
      graph no workspace can be found and `move` never sends a request. */
  lemma MoveNeverSucceeds(args: MoveArgs, first: seq<Event>, second: seq<Event>, later: seq<seq<Event>>)
    ensures MoveSpec(args, first, second, later).Failure?
  {
    var s := Discovered(first, second);
    DiscoveryNeverFillsGroupsOrSeats(first, second);
    var v := ValidateMove(args.appId, args.appIndex);
    if v.Success? {
      match v.value
      case ByIndex(_) =>
      case ById(q) => PollKeepsGroupsAndSeats(s, q, args.wait, later, 0);
    }
  }

  /** No event fills the seats, so `activate` never sends a request either. */
  lemma ActivateNeverSucceeds(args: ActivateArgs, first: seq<Event>, second: seq<Event>)
    ensures ActivateSpec(args, first, second).Failure?
  {
    DiscoveryNeverFillsGroupsOrSeats(first, second);
  }
}

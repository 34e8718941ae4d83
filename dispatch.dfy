/** The event reducer of cos-cli (src/dispatch.rs): every event the compositor
    delivers is a small transition on the object graph. `Step` is the
    specification of one transition, `Run` of a roundtrip's worth of them, and
    the class `LiveState` is the mutable graph whose handler methods are proved
    against `Step`. */
module Dispatch {
  import opened Types

  const OutputInterface := "wl_output"
  const ToplevelInfoInterface := "zcosmic_toplevel_info_v1"
  const WorkspaceManagerInterface := "ext_workspace_manager_v1"
  const ToplevelManagerInterface := "zcosmic_toplevel_manager_v1"

  /** The events the client can receive, one constructor per handled event and
      one catch-all per proxy kind for the events its handler ignores.
      A `Global` event also carries `bound`: the proxy that the client's bind
      request creates for it (a bind produces a fresh handle). */
  datatype Event =
    | Global(globalName: nat, iface: string, version: nat, bound: Handle)
    | RegistryOther                                       // global_remove
    | OutputName(output: Handle, name: string)
    | OutputOther(output: Handle)                         // geometry, mode, scale, done, description
    | WorkspaceManagerEvent(manager: Handle)              // workspace_group, workspace, done, finished
    | WorkspaceName(workspace: Handle, name: string)
    | WorkspaceOther(workspace: Handle)                   // id, coordinates, state, capabilities, removed
    | WorkspaceGroupEvent(group: Handle)
    | ToplevelManagerEvent(manager: Handle)
    | InfoToplevel(toplevel: Handle)
    | InfoOther                                           // finished, done
    | Title(toplevel: Handle, title: string)
    | AppId(toplevel: Handle, appId: string)
    | OutputEnter(toplevel: Handle, output: Handle)
    | ToplevelOther(toplevel: Handle)                     // closed, done, state, output_leave, workspace_enter/leave

  /** A bind request issued by the registry handler: global name, interface, version. */
  datatype Bind = Bind(name: nat, iface: string, version: nat)

  /** The bind request the registry handler issues for a global, if any:
      fixed versions for outputs (4) and toplevel info (1), the advertised
      version for the workspace manager and the toplevel manager. */
  function BindFor(name: nat, iface: string, version: nat): (b: Option<Bind>)
    ensures b.Some? <==> iface in {OutputInterface, ToplevelInfoInterface, WorkspaceManagerInterface, ToplevelManagerInterface}
    ensures b.Some? ==> b.value.name == name && b.value.iface == iface
    ensures b.Some? && iface == OutputInterface ==> b.value.version == 4
    ensures b.Some? && iface == ToplevelInfoInterface ==> b.value.version == 1
    ensures b.Some? && iface in {WorkspaceManagerInterface, ToplevelManagerInterface} ==> b.value.version == version
  {
    if iface == OutputInterface then Some(Bind(name, iface, 4))
    else if iface == ToplevelInfoInterface then Some(Bind(name, iface, 1))
    else if iface == WorkspaceManagerInterface || iface == ToplevelManagerInterface then Some(Bind(name, iface, version))
    else None
  }

  /** The position of the first app whose handle is `h` (`iter_mut().find`). */
  function FindApp(apps: seq<App>, h: Handle): (r: Option<nat>)
    ensures r.Some? ==> r.value < |apps| && apps[r.value].handle == h
    ensures r.Some? ==> forall j :: 0 <= j < r.value ==> apps[j].handle != h
    ensures r.None? ==> forall j :: 0 <= j < |apps| ==> apps[j].handle != h
  {
    if |apps| == 0 then None
    else if apps[0].handle == h then Some(0)
    else match FindApp(apps[1..], h)
      case Some(i) => Some(i + 1)
      case None => None
  }

  /** One event applied to the graph. Apps, outputs and workspaces are only
      appended to or overwritten in place; groups and seats are never touched. */
  function Step(s: AppState, e: Event): (r: AppState)
    ensures |s.apps| <= |r.apps|
    ensures forall i :: 0 <= i < |s.apps| ==> r.apps[i].handle == s.apps[i].handle
    ensures r.groups == s.groups && r.seats == s.seats
    ensures |s.outputs| <= |r.outputs| && r.outputs[..|s.outputs|] == s.outputs
    ensures |s.workspaces| <= |r.workspaces| && r.workspaces[..|s.workspaces|] == s.workspaces
  {
    match e
    case Global(_, iface, _, bound) =>
      if iface == ToplevelManagerInterface then s.(manager := Some(bound)) else s
    case OutputName(o, n) => s.(outputs := s.outputs + [Output(o, n)])
    case WorkspaceName(w, n) => s.(workspaces := s.workspaces + [Workspace(n, w)])
    case InfoToplevel(h) => s.(apps := s.apps + [NewApp(h)])
    case Title(h, t) =>
      (match FindApp(s.apps, h)
       case Some(i) => s.(apps := s.apps[i := s.apps[i].(title := Some(t))])
       case None => s)
    case AppId(h, a) =>
      (match FindApp(s.apps, h)
       case Some(i) => s.(apps := s.apps[i := s.apps[i].(appId := Some(a))])
       case None => s)
    case OutputEnter(h, o) =>
      (match FindApp(s.apps, h)
       case Some(i) => s.(apps := s.apps[i := s.apps[i].(outputs := s.apps[i].outputs + [o])])
       case None => s)
    case _ => s
  }

  /** A roundtrip: the events it delivers, applied in order. Over any
      sequence of events nothing is removed: apps keep their place and
      handle, outputs and workspaces only grow at the end, groups and seats stay. */
  function Run(s: AppState, es: seq<Event>): (r: AppState)
    ensures |s.apps| <= |r.apps|
    ensures forall i :: 0 <= i < |s.apps| ==> r.apps[i].handle == s.apps[i].handle
    ensures r.groups == s.groups && r.seats == s.seats
    ensures |s.outputs| <= |r.outputs| && r.outputs[..|s.outputs|] == s.outputs
    ensures |s.workspaces| <= |r.workspaces| && r.workspaces[..|s.workspaces|] == s.workspaces
    decreases |es|
  {
    if es == [] then s
    else
      var t := Step(s, es[0]);
      var r := Run(t, es[1..]);
      assert r.outputs[..|s.outputs|] == r.outputs[..|t.outputs|][..|s.outputs|];
      assert r.workspaces[..|s.workspaces|] == r.workspaces[..|t.workspaces|][..|s.workspaces|];
      r
  }

  /** The bind an event makes the registry handler issue: one for a
      recognised global, none otherwise. */
  function BindOf(e: Event): seq<Bind> {
    if e.Global? then
      match BindFor(e.globalName, e.iface, e.version)
      case Some(b) => [b]
      case None => []
    else []
  }

  /** The binds a roundtrip issues, in arrival order: one per recognised
      global, each for one of the four recognised interfaces. */
  function BindsOf(es: seq<Event>): (r: seq<Bind>)
    ensures |r| <= |es|
    ensures forall b :: b in r ==> b.iface in {OutputInterface, ToplevelInfoInterface, WorkspaceManagerInterface, ToplevelManagerInterface}
    decreases |es|
  {
    if es == [] then [] else BindOf(es[0]) + BindsOf(es[1..])
  }

  // ---------------------------------------------------------------------
  // Single-event properties

  /** A global whose interface the client does not know changes nothing. */
  lemma UnknownGlobalIsNoOp(s: AppState, name: nat, iface: string, version: nat, bound: Handle)
    requires iface !in {OutputInterface, ToplevelInfoInterface, WorkspaceManagerInterface, ToplevelManagerInterface}
    ensures Step(s, Global(name, iface, version, bound)) == s
    ensures BindFor(name, iface, version).None?
  {
  }

  /** Of the recognised globals only the toplevel manager changes the state,
      and it sets the manager handle and nothing else. */
  lemma GlobalSetsOnlyManager(s: AppState, name: nat, iface: string, version: nat, bound: Handle)
    ensures var r := Step(s, Global(name, iface, version, bound));
      && (iface == ToplevelManagerInterface ==> r == s.(manager := Some(bound)))
      && (iface != ToplevelManagerInterface ==> r == s)
  {
  }

  /** An output name appends exactly one pair; delivered twice, it appends a duplicate. */
  lemma OutputNameAppends(s: AppState, o: Handle, n: string)
    ensures Step(s, OutputName(o, n)) == s.(outputs := s.outputs + [Output(o, n)])
    ensures Step(Step(s, OutputName(o, n)), OutputName(o, n)).outputs == s.outputs + [Output(o, n), Output(o, n)]
  {
  }

  /** A toplevel announcement appends one blank app and changes nothing else. */
  lemma ToplevelAppendsBlankApp(s: AppState, h: Handle)
    ensures var r := Step(s, InfoToplevel(h));
      && |r.apps| == |s.apps| + 1 && r.apps[..|s.apps|] == s.apps
      && r.apps[|s.apps|] == App(h, None, None, [])
      && r == s.(apps := r.apps)
  {
  }

  /** A title or app id event overwrites that one field of the first app with
      the target handle and nothing else; with no such app it changes nothing. */
  lemma AttributeEventUpdatesFirstMatch(s: AppState, h: Handle, v: string)
    ensures var rt := Step(s, Title(h, v));
            var ra := Step(s, AppId(h, v));
      && (FindApp(s.apps, h).None? ==> rt == s && ra == s)
      && (FindApp(s.apps, h).Some? ==>
            var i := FindApp(s.apps, h).value;
            && rt == s.(apps := rt.apps) && ra == s.(apps := ra.apps)
            && |rt.apps| == |ra.apps| == |s.apps|
            && rt.apps[i] == s.apps[i].(title := Some(v))
            && ra.apps[i] == s.apps[i].(appId := Some(v))
            && (forall j :: 0 <= j < |s.apps| && j != i ==> rt.apps[j] == s.apps[j] && ra.apps[j] == s.apps[j]))
  {
  }

  /** An output enter appends the output to the first matching app only. */
  lemma OutputEnterAppendsToMatch(s: AppState, h: Handle, o: Handle)
    ensures var r := Step(s, OutputEnter(h, o));
      && (FindApp(s.apps, h).None? ==> r == s)
      && (FindApp(s.apps, h).Some? ==>
            var i := FindApp(s.apps, h).value;
            && r == s.(apps := r.apps) && |r.apps| == |s.apps|
            && r.apps[i] == s.apps[i].(outputs := s.apps[i].outputs + [o])
            && (forall j :: 0 <= j < |s.apps| && j != i ==> r.apps[j] == s.apps[j]))
  {
  }

  /** Workspace-group, workspace-manager and toplevel-manager events, the
      ignored events of every other proxy, and the registry's other events
      leave the state as it was. */
  lemma IgnoredEventsAreNoOps(s: AppState, e: Event)
    requires e.RegistryOther? || e.OutputOther? || e.WorkspaceManagerEvent? || e.WorkspaceOther?
          || e.WorkspaceGroupEvent? || e.ToplevelManagerEvent? || e.InfoOther? || e.ToplevelOther?
    ensures Step(s, e) == s
  {
  }

  // ---------------------------------------------------------------------
  // Properties of whole roundtrips

  /** Two roundtrips in a row are one roundtrip over both event sequences. */
  lemma {:induction false} RunAppend(s: AppState, a: seq<Event>, b: seq<Event>)
    ensures Run(s, a + b) == Run(Run(s, a), b)
    decreases |a|
  {
    if a != [] {
      assert (a + b)[0] == a[0];
      assert (a + b)[1..] == a[1..] + b;
      RunAppend(Step(s, a[0]), a[1..], b);
    } else {
      assert a + b == b;
    }
  }

  /** The binds of two event sequences in a row are the binds of each, in order. */
  lemma {:induction false} BindsOfAppend(a: seq<Event>, b: seq<Event>)
    ensures BindsOf(a + b) == BindsOf(a) + BindsOf(b)
    decreases |a|
  {
    if a == [] {
      assert a + b == b;
    } else {
      assert (a + b)[0] == a[0];
      assert (a + b)[1..] == a[1..] + b;
      BindsOfAppend(a[1..], b);
    }
  }

  /** Extending a prefix of a roundtrip by one event adds that event's bind. */
  lemma BindsOfPrefix(es: seq<Event>, k: nat)
    requires k < |es|
    ensures BindsOf(es[..k + 1]) == BindsOf(es[..k]) + BindOf(es[k])
  {
    assert es[..k + 1] == es[..k] + [es[k]];
    BindsOfAppend(es[..k], [es[k]]);
    assert BindsOf([es[k]]) == BindOf(es[k]) + BindsOf([]) by { assert [es[k]][1..] == []; }
  }

  /** `FindApp` looks at handles only. */
  lemma FindAppSameHandles(a: seq<App>, b: seq<App>, h: Handle)
    requires |a| <= |b|
    requires forall i :: 0 <= i < |a| ==> a[i].handle == b[i].handle
    requires FindApp(a, h).Some?
    ensures FindApp(b, h) == FindApp(a, h)
  {
  }

  /** One event keeps the first app with a handle the first. */
  lemma StepKeepsFirstMatch(s: AppState, e: Event, h: Handle)
    requires FindApp(s.apps, h).Some?
    ensures FindApp(Step(s, e).apps, h) == FindApp(s.apps, h)
  {
    FindAppSameHandles(s.apps, Step(s, e).apps, h);
  }

  /** A roundtrip of one event is that event's step. */
  lemma RunSingle(s: AppState, e: Event)
    ensures Run(s, [e]) == Step(s, e)
  {
    assert [e][1..] == [];
  }

  /** Once an app is the first with its handle, it stays the first through any events. */
  lemma RunKeepsFirstMatch(s: AppState, es: seq<Event>, h: Handle)
    requires FindApp(s.apps, h).Some?
    ensures FindApp(Run(s, es).apps, h) == FindApp(s.apps, h)
  {
    FindAppSameHandles(s.apps, Run(s, es).apps, h);
  }

  /** The two string attributes an event can overwrite. */
  datatype Field = TitleField | AppIdField

  function Attribute(a: App, f: Field): Option<string> {
    match f
    case TitleField => a.title
    case AppIdField => a.appId
  }

  /** The event that sets attribute `f` of the app with handle `h` to `v`. */
  function SetEvent(f: Field, h: Handle, v: string): Event {
    match f
    case TitleField => Title(h, v)
    case AppIdField => AppId(h, v)
  }

  ghost predicate Sets(e: Event, f: Field, h: Handle) {
    match f
    case TitleField => e.Title? && e.toplevel == h
    case AppIdField => e.AppId? && e.toplevel == h
  }

  /** Last write wins: after a title (or app id) event for an app that already
      exists, and no later event of that kind for its handle, the app carries
      that value. */
  lemma {:induction false} LastWriteWins(s: AppState, es: seq<Event>, k: nat, f: Field, h: Handle, v: string)
    requires FindApp(s.apps, h).Some?
    requires k < |es| && es[k] == SetEvent(f, h, v)
    requires forall j :: k < j < |es| ==> !Sets(es[j], f, h)
    ensures var i := FindApp(s.apps, h).value; i < |Run(s, es).apps| && Attribute(Run(s, es).apps[i], f) == Some(v)
    decreases |es|
  {
    var i := FindApp(s.apps, h).value;
    var t0 := Step(s, es[0]);
    StepKeepsFirstMatch(s, es[0], h);
    if k == 0 {
      AttributeSurvives(t0, es[1..], f, h, v, i);
    } else {
      forall j | k - 1 < j < |es[1..]| ensures !Sets(es[1..][j], f, h) {
        assert es[1..][j] == es[j + 1];
      }
      LastWriteWins(t0, es[1..], k - 1, f, h, v);
    }
  }

  /** An attribute already set survives every event that does not set that
      attribute for its app. */
  lemma {:induction false} AttributeSurvives(s: AppState, es: seq<Event>, f: Field, h: Handle, v: string, i: nat)
    requires FindApp(s.apps, h) == Some(i)
    requires Attribute(s.apps[i], f) == Some(v)
    requires forall j :: 0 <= j < |es| ==> !Sets(es[j], f, h)
    ensures i < |Run(s, es).apps| && Attribute(Run(s, es).apps[i], f) == Some(v)
    decreases |es|
  {
    if es != [] {
      var t0 := Step(s, es[0]);
      assert !Sets(es[0], f, h);
      StepKeepsFirstMatch(s, es[0], h);
      forall j | 0 <= j < |es[1..]| ensures !Sets(es[1..][j], f, h) {
        assert es[1..][j] == es[j + 1];
      }
      AttributeSurvives(t0, es[1..], f, h, v, i);
    }
  }

  /** The output an event enters for handle `h`, if it is an output enter for `h`. */
  function EnteredBy(e: Event, h: Handle): seq<Handle> {
    if e.OutputEnter? && e.toplevel == h then [e.output] else []
  }

  /** The outputs that the output-enter events in `es` report for handle `h`, in order. */
  function Entered(es: seq<Event>, h: Handle): seq<Handle>
    decreases |es|
  {
    if es == [] then [] else EnteredBy(es[0], h) + Entered(es[1..], h)
  }

  /** What one event adds to the outputs of the first app with handle `h`. */
  lemma StepEnters(s: AppState, e: Event, h: Handle, i: nat)
    requires FindApp(s.apps, h) == Some(i)
    ensures i < |Step(s, e).apps|
    ensures Step(s, e).apps[i].outputs == s.apps[i].outputs + EnteredBy(e, h)
  {
    match e
    case OutputEnter(h', o) =>
      if h' != h {
        match FindApp(s.apps, h')
        case Some(j) => assert j != i;
        case None =>
      }
    case _ =>
  }

  /** The outputs of an existing app accumulate: over a roundtrip it gains
      exactly the outputs entered for its handle, in arrival order, duplicates kept. */
  lemma {:induction false} OutputsAccumulate(s: AppState, es: seq<Event>, h: Handle, i: nat)
    requires FindApp(s.apps, h) == Some(i)
    ensures i < |Run(s, es).apps|
    ensures Run(s, es).apps[i].outputs == s.apps[i].outputs + Entered(es, h)
    decreases |es|
  {
    if es == [] {
      assert s.apps[i].outputs + [] == s.apps[i].outputs;
    } else {
      var t0 := Step(s, es[0]);
      StepEnters(s, es[0], h, i);
      StepKeepsFirstMatch(s, es[0], h);
      OutputsAccumulate(t0, es[1..], h, i);
      var r := Run(t0, es[1..]);
      assert Run(s, es) == r;
      Associative(s.apps[i].outputs, EnteredBy(es[0], h), Entered(es[1..], h));
    }
  }

  /** Concatenation regroups; stated apart so that `OutputsAccumulate` needs
      only this one instance of it. */
  lemma Associative(a: seq<Handle>, b: seq<Handle>, c: seq<Handle>)
    ensures (a + b) + c == a + (b + c)
  {
  }

  /** A newly announced handle is found at the end of the app list. */
  lemma AnnouncedIsFound(s: AppState, h: Handle)
    requires FindApp(s.apps, h).None?
    ensures FindApp(Step(s, InfoToplevel(h)).apps, h) == Some(|s.apps|)
  {
    var apps := Step(s, InfoToplevel(h)).apps;
    assert apps[|s.apps|].handle == h;
    assert forall j :: 0 <= j < |s.apps| ==> apps[j].handle == s.apps[j].handle;
  }

  /** An app announced in a roundtrip gets its attributes from events later
      in the same roundtrip: the last title (or app id) event for its handle
      after the announcement decides its title (or app id) at the end. */
  lemma AttributeAfterAnnouncement(s: AppState, es: seq<Event>, m: nat, k: nat, f: Field, h: Handle, v: string)
    requires m < k < |es| && es[m] == InfoToplevel(h) && es[k] == SetEvent(f, h, v)
    requires FindApp(Run(s, es[..m]).apps, h).None?
    requires forall j :: k < j < |es| ==> !Sets(es[j], f, h)
    ensures var i := |Run(s, es[..m]).apps|; i < |Run(s, es).apps| && Attribute(Run(s, es).apps[i], f) == Some(v)
  {
    var before := Run(s, es[..m]);
    var after := Step(before, InfoToplevel(h));
    var rest := es[m + 1..];
    assert FindApp(after.apps, h) == Some(|before.apps|) by { AnnouncedIsFound(before, h); }
    assert Run(s, es) == Run(after, rest) by { RunSplit(s, es, m); }
    assert rest[k - m - 1] == SetEvent(f, h, v);
    assert forall j :: k - m - 1 < j < |rest| ==> !Sets(rest[j], f, h) by {
      forall j | k - m - 1 < j < |rest| ensures !Sets(rest[j], f, h) {
        assert rest[j] == es[j + m + 1];
      }
    }
    LastWriteWins(after, rest, k - m - 1, f, h, v);
  }

  /** A roundtrip split at its `m`-th event. */
  lemma RunSplit(s: AppState, es: seq<Event>, m: nat)
    requires m < |es|
    ensures Run(s, es) == Run(Step(Run(s, es[..m]), es[m]), es[m + 1..])
  {
    var before := Run(s, es[..m]);
    assert Run(s, es[..m + 1]) == Step(before, es[m]) by {
      assert es[..m] + [es[m]] == es[..m + 1];
      RunAppend(s, es[..m], [es[m]]);
      RunSingle(before, es[m]);
    }
    assert es[..m + 1] + es[m + 1..] == es;
    RunAppend(s, es[..m + 1], es[m + 1..]);
  }

  /** Attribute events for different fields commute: their arrival order does not matter. */
  lemma TitleAndAppIdCommute(s: AppState, h1: Handle, t: string, h2: Handle, a: string)
    ensures Step(Step(s, Title(h1, t)), AppId(h2, a)) == Step(Step(s, AppId(h2, a)), Title(h1, t))
  {
    var st := Step(s, Title(h1, t));
    var sa := Step(s, AppId(h2, a));
    if FindApp(s.apps, h1).Some? {
      FindAppSameHandles(s.apps, sa.apps, h1);
    }
    if FindApp(s.apps, h2).Some? {
      FindAppSameHandles(s.apps, st.apps, h2);
    }
  }

  /** No handler fills the workspace groups or the seats: after discovery from
      the initial state, both are still empty, whatever the compositor sends. */
  lemma DiscoveryNeverFillsGroupsOrSeats(first: seq<Event>, second: seq<Event>)
    ensures Run(Run(Initial(), first), second).groups == []
    ensures Run(Run(Initial(), first), second).seats == []
  {
  }

  // ---------------------------------------------------------------------
  // The mutable object graph

  /** The client's `AppState`, mutated in place by the handlers. */
  class LiveState {
    var groups: seq<seq<Workspace>>
    var workspaces: seq<Workspace>
    var manager: Option<Handle>
    var outputs: seq<Output>
    var seats: seq<Seat>
    var apps: seq<App>

    function View(): AppState
      reads this
    {
      AppState(groups, workspaces, manager, outputs, seats, apps)
    }

    /** The empty graph `main` builds before discovery. */
    constructor ()
      ensures View() == Initial()
    {
      groups, workspaces, manager := [], [], None;
      outputs, seats, apps := [], [], [];
    }

    /** Registry `global`: bind the four known interfaces; keep the toplevel manager. */
    method OnGlobal(name: nat, iface: string, version: nat, bound: Handle) returns (bind: Option<Bind>)
      modifies this
      ensures View() == Step(old(View()), Global(name, iface, version, bound))
      ensures bind == BindFor(name, iface, version)
    {
      bind := BindFor(name, iface, version);
      if iface == ToplevelManagerInterface {
        manager := Some(bound);
      }
    }

    /** Output `name`: record the output. */
    method OnOutputName(o: Handle, n: string)
      modifies this
      ensures View() == Step(old(View()), OutputName(o, n))
    {
      outputs := outputs + [Output(o, n)];
    }

    /** Workspace `name`: record the workspace in the flat list. */
    method OnWorkspaceName(w: Handle, n: string)
      modifies this
      ensures View() == Step(old(View()), WorkspaceName(w, n))
    {
      workspaces := workspaces + [Workspace(n, w)];
    }

    /** Toplevel-info `toplevel`: append a blank app for the new handle. */
    method OnToplevel(h: Handle)
      modifies this
      ensures View() == Step(old(View()), InfoToplevel(h))
    {
      apps := apps + [NewApp(h)];
    }

    /** Toplevel `title`: set the title of the first app with that handle. */
    method OnTitle(h: Handle, t: string)
      modifies this
      ensures View() == Step(old(View()), Title(h, t))
    {
      var found := FindApp(apps, h);
      if found.Some? {
        var i := found.value;
        apps := apps[i := apps[i].(title := Some(t))];
      }
    }

    /** Toplevel `app_id`: set the app id of the first app with that handle. */
    method OnAppId(h: Handle, a: string)
      modifies this
      ensures View() == Step(old(View()), AppId(h, a))
    {
      var found := FindApp(apps, h);
      if found.Some? {
        var i := found.value;
        apps := apps[i := apps[i].(appId := Some(a))];
      }
    }

    /** Toplevel `output_enter`: append the output to the first app with that handle. */
    method OnOutputEnter(h: Handle, o: Handle)
      modifies this
      ensures View() == Step(old(View()), OutputEnter(h, o))
    {
      var found := FindApp(apps, h);
      if found.Some? {
        var i := found.value;
        apps := apps[i := apps[i].(outputs := apps[i].outputs + [o])];
      }
    }

    /** Route one event to its handler; the bind request of a global is returned. */
    method Dispatch(e: Event) returns (bind: Option<Bind>)
      modifies this
      ensures View() == Step(old(View()), e)
      ensures bind == if e.Global? then BindFor(e.globalName, e.iface, e.version) else None
    {
      bind := None;
      match e {
        case Global(name, iface, version, bound) => bind := OnGlobal(name, iface, version, bound);
        case OutputName(o, n) => OnOutputName(o, n);
        case WorkspaceName(w, n) => OnWorkspaceName(w, n);
        case InfoToplevel(h) => OnToplevel(h);
        case Title(h, t) => OnTitle(h, t);
        case AppId(h, a) => OnAppId(h, a);
        case OutputEnter(h, o) => OnOutputEnter(h, o);
        case _ =>
      }
    }

    /** A roundtrip: dispatch the delivered events in order and collect the binds issued. */
    method Roundtrip(es: seq<Event>) returns (binds: seq<Bind>)
      modifies this
      ensures View() == Run(old(View()), es)
      ensures binds == BindsOf(es)
      ensures forall b :: b in binds ==> b.iface in {OutputInterface, ToplevelInfoInterface, WorkspaceManagerInterface, ToplevelManagerInterface}
    {
      binds := [];
      for k := 0 to |es|
        invariant Run(old(View()), es) == Run(View(), es[k..])
        invariant binds == BindsOf(es[..k])
      {
        assert es[k..][1..] == es[k + 1..];
        var b := Dispatch(es[k]);
        if b.Some? {
          binds := binds + [b.value];
        }
        BindsOfPrefix(es, k);
      }
      assert es[|es|..] == [];
      assert es[..|es|] == es;
    }
  }
}

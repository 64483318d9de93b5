/**
 How machines claim and release agents (cluster-api-provider-kubeforce/controllers/kubeforcemachine_controller.go).

 The agent's machine label is the lock, taken by an update with a version check; the machine's AgentRef is the
 record of it. `World` holds any number of agents and machines, `Apply` makes one API call. The search for a free
 agent may read any past version of an agent; a machine's own-label list is fresh; replies and status patches may
 be lost and reconciles may be cut off anywhere. A machine has one reconcile at a time.
 */
module AgentClaim {
  import opened Common

  type Id = nat

  /** A version of an agent: its machine label, and whether it is ready. */
  datatype Snapshot = Snapshot(holder: Option<Id>, ready: bool)

  /** An agent, as the history of its versions: the resource version is the length. */
  datatype Agent = Agent(history: seq<Snapshot>)
  {
    function Version(): nat { |history| }
    predicate Holds(m: Id) { history != [] && Last(history).holder == Some(m) }
    predicate Free() { history != [] && Last(history).holder == None }
    predicate IsReady() { history != [] && Last(history).ready }
    function With(holder: Option<Id>): Agent { Agent(history + [Snapshot(holder, IsReady())]) }
    function Touched(ready: bool): Agent
      requires history != []
    {
      Agent(history + [Snapshot(Last(history).holder, ready)])
    }
  }

  /** Where a machine's reconcile stands: its own-label list was empty; it is about to update an agent from a
      snapshot; it holds the label and is about to record it. */
  datatype Pc = Idle | Searching | Updating(agent: Id, version: nat) | Recording(agent: Id)

  datatype Machine = Machine(ref: Option<Id>, deleting: bool, pc: Pc)

  /** `stale` is history: the machines that released their agent and are still there, because the patch of their
      finalizer was lost. */
  datatype World = World(agents: map<Id, Agent>, machines: map<Id, Machine>, stale: set<Id>)

  datatype Step =
    | AddAgent(a: Id)
    | Touch(a: Id, ready: bool)                 // another writer of the agent
    | AddMachine(m: Id)
    | MarkDeleted(m: Id)
    | Begin(m: Id, found: Option<Id>)         // the own-label list finds nothing, or one agent
    | Pick(m: Id, a: Id, version: nat)        // an agent, free and ready in a possibly old snapshot
    | Update(m: Id, result: WriteResult)
    | Record(m: Id, lost: bool)
    | Abandon(m: Id)                            // an error or a crash
    | Remove(m: Id)                             // deletion of a machine without AgentRef
    | Release(m: Id, finalizerLost: bool)

  const NEW_AGENT := Agent([Snapshot(None, false)])

  const EMPTY := World(map[], map[], {})

  predicate OwnLabel(w: World, m: Id, found: Option<Id>) {
    match found
    case None => forall a | a in w.agents :: !w.agents[a].Holds(m)
    case Some(a) => a in w.agents && forall b | b in w.agents :: w.agents[b].Holds(m) <==> b == a
  }

  predicate Enabled(w: World, s: Step) {
    match s
    case AddAgent(a) => a !in w.agents
    case Touch(a, _) => a in w.agents && w.agents[a].history != []
    case AddMachine(m) => m !in w.machines
    case MarkDeleted(m) => m in w.machines
    case Begin(m, found) =>
      m in w.machines && w.machines[m].pc.Idle? && !w.machines[m].deleting && w.machines[m].ref.None?
        && OwnLabel(w, m, found)
    case Pick(m, a, version) =>
      m in w.machines && w.machines[m].pc.Searching? && a in w.agents
      && 0 < version <= w.agents[a].Version() && w.agents[a].history[version - 1] == Snapshot(None, true)
    case Update(m, _) => m in w.machines && w.machines[m].pc.Updating?
    case Record(m, _) => m in w.machines && w.machines[m].pc.Recording?
    case Abandon(m) => m in w.machines
    case Remove(m) =>
      m in w.machines && w.machines[m].deleting && w.machines[m].pc.Idle? && w.machines[m].ref.None?
    case Release(m, _) =>
      m in w.machines && w.machines[m].deleting && w.machines[m].pc.Idle? && w.machines[m].ref.Some?
      && w.machines[m].ref.value in w.agents
  }

  function At(w: World, m: Id, pc: Pc): World
    requires m in w.machines
  {
    w.(machines := w.machines[m := w.machines[m].(pc := pc)])
  }

  function Relabel(w: World, a: Id, holder: Option<Id>): World
    requires a in w.agents
  {
    w.(agents := w.agents[a := w.agents[a].With(holder)])
  }

  function Apply(w: World, s: Step): World {
    if !Enabled(w, s) then w
    else match s
      case AddAgent(a) => w.(agents := w.agents[a := NEW_AGENT])
      case Touch(a, ready) => w.(agents := w.agents[a := w.agents[a].Touched(ready)])
      case AddMachine(m) => w.(machines := w.machines[m := Machine(None, false, Idle)])
      case MarkDeleted(m) => w.(machines := w.machines[m := w.machines[m].(deleting := true)])
      case Begin(m, found) => At(w, m, if found.Some? then Recording(found.value) else Searching)
      case Pick(m, a, version) => At(w, m, Updating(a, version))
      case Update(m, result) =>
        var Updating(a, version) := w.machines[m].pc;
        if a in w.agents && w.agents[a].Version() == version && !result.Rejected?
        then At(Relabel(w, a, Some(m)), m, if result.Applied? then Recording(a) else Idle)
        else At(w, m, Idle)
      case Record(m, lost) =>
        var a := w.machines[m].pc.agent;
        w.(machines := w.machines[m := w.machines[m].(pc := Idle, ref := if lost then w.machines[m].ref else Some(a))])
      case Abandon(m) => At(w, m, Idle)
      case Remove(m) => w.(machines := w.machines - {m})
      case Release(m, finalizerLost) =>
        var v := Relabel(w, w.machines[m].ref.value, None);
        if finalizerLost then v.(stale := w.stale + {m}) else v.(machines := w.machines - {m}, stale := w.stale - {m})
  }

  function Run(w: World, steps: seq<Step>): World
    decreases |steps|
  {
    if steps == [] then w else Run(Apply(w, steps[0]), steps[1..])
  }

  // ---- Safety -----------------------------------------------------------------------------------

  ghost predicate Exclusive(w: World) {
    forall a, b, m {:trigger w.agents[a].Holds(m), w.agents[b].Holds(m)} |
      a in w.agents && b in w.agents && w.agents[a].Holds(m) && w.agents[b].Holds(m) :: a == b
  }

  /** What a machine believes is true of the agents. */
  predicate Believes(w: World, m: Id, x: Machine) {
    && (x.ref.Some? ==> x.ref.value in w.agents && w.agents[x.ref.value].Holds(m) && x.pc.Idle?)
    && (x.pc.Recording? ==> x.pc.agent in w.agents && w.agents[x.pc.agent].Holds(m))
    && (x.pc.Searching? || x.pc.Updating? ==> forall a | a in w.agents :: !w.agents[a].Holds(m))
    && (x.pc.Updating? ==>
          x.pc.agent in w.agents && 0 < x.pc.version <= w.agents[x.pc.agent].Version()
          && w.agents[x.pc.agent].history[x.pc.version - 1] == Snapshot(None, true))
  }

  ghost predicate Safe(w: World) {
    && (forall a | a in w.agents :: w.agents[a].history != [])
    && Exclusive(w)
    && (forall m | m in w.machines :: Believes(w, m, w.machines[m]))
  }

  lemma WithIsLast(x: Agent, holder: Option<Id>)
    ensures x.With(holder).history != []
    ensures forall m: Id :: x.With(holder).Holds(m) <==> holder == Some(m)
    ensures x.history <= x.With(holder).history && (x.With(holder).IsReady() <==> x.IsReady())
  {
    assert Last(x.history + [Snapshot(holder, x.IsReady())]).holder == holder;
  }

  lemma TouchedIsLast(x: Agent, ready: bool)
    requires x.history != []
    ensures x.Touched(ready).history != []
    ensures forall m: Id :: x.Touched(ready).Holds(m) <==> x.Holds(m)
    ensures x.history <= x.Touched(ready).history
  {
    assert Last(x.history + [Snapshot(Last(x.history).holder, ready)]).holder == Last(x.history).holder;
  }

  /** Taking a free agent for a machine that holds none. */
  lemma TakeKeepsSafe(w: World, m: Id, a: Id)
    requires Safe(w) && m in w.machines && a in w.agents && w.agents[a].Free()
    requires w.machines[m].ref.None? && forall b | b in w.agents :: !w.agents[b].Holds(m)
    ensures Safe(Relabel(At(w, m, Idle), a, Some(m)))
  {
    var v := Relabel(At(w, m, Idle), a, Some(m));
    WithIsLast(w.agents[a], Some(m));
    forall n | n in v.machines ensures Believes(v, n, v.machines[n]) {
      assert Believes(w, n, w.machines[n]);
    }
  }

  /** A machine may move to any state that is true of the agents. */
  lemma MachineKeepsSafe(w: World, m: Id, x: Machine)
    requires Safe(w) && Believes(w, m, x)
    ensures Safe(w.(machines := w.machines[m := x]))
  {
    var v := w.(machines := w.machines[m := x]);
    forall n | n in v.machines ensures Believes(v, n, v.machines[n]) {
      if n != m { assert Believes(w, n, w.machines[n]); }
    }
  }

  lemma NewAgentKeepsSafe(w: World, a: Id)
    requires Safe(w) && a !in w.agents
    ensures Safe(w.(agents := w.agents[a := NEW_AGENT]))
  {
    var v := w.(agents := w.agents[a := NEW_AGENT]);
    forall n | n in v.machines ensures Believes(v, n, v.machines[n]) {
      assert Believes(w, n, w.machines[n]);
    }
  }

  /** Giving up an agent that no machine records or is about to record. */
  lemma DropKeepsSafe(w: World, a: Id)
    requires Safe(w) && a in w.agents
    ensures Safe(Relabel(w, a, None)) <==>
              forall m | m in w.machines :: w.machines[m].ref != Some(a) && w.machines[m].pc != Recording(a)
  {
    var v := Relabel(w, a, None);
    WithIsLast(w.agents[a], None);
    if m :| m in w.machines && (w.machines[m].ref == Some(a) || w.machines[m].pc == Recording(a)) {
      assert !v.agents[a].Holds(m);
      assert !Believes(v, m, v.machines[m]);
    } else {
      forall m | m in v.machines ensures Believes(v, m, v.machines[m]) {
        assert Believes(w, m, w.machines[m]);
      }
    }
  }

  lemma TouchKeepsSafe(w: World, a: Id, ready: bool)
    requires Safe(w) && a in w.agents
    ensures Safe(w.(agents := w.agents[a := w.agents[a].Touched(ready)]))
  {
    var v := w.(agents := w.agents[a := w.agents[a].Touched(ready)]);
    TouchedIsLast(w.agents[a], ready);
    forall m | m in v.machines ensures Believes(v, m, v.machines[m]) {
      assert Believes(w, m, w.machines[m]);
    }
  }

  lemma ReleaseKeepsSafe(w: World, m: Id)
    requires Safe(w) && Enabled(w, Release(m, false))
    ensures Safe(Apply(w, Release(m, false)))
  {
    var a := w.machines[m].ref.value;
    var v := w.(machines := w.machines - {m});
    forall n | n in v.machines ensures v.machines[n].ref != Some(a) && v.machines[n].pc != Recording(a) {
      assert Believes(w, n, w.machines[n]) && Believes(w, m, w.machines[m]);
      assert w.agents[a].Holds(m);
    }
    forall n | n in v.machines ensures Believes(v, n, v.machines[n]) {
      assert Believes(w, n, w.machines[n]);
    }
    DropKeepsSafe(v, a);
    assert Relabel(v, a, None).(stale := w.stale - {m}) == Apply(w, Release(m, false));
  }

  lemma UpdateKeepsSafe(w: World, m: Id, result: WriteResult)
    requires Safe(w) && Enabled(w, Update(m, result))
    ensures Safe(Apply(w, Update(m, result)))
  {
    var v := Apply(w, Update(m, result));
    var x := w.machines[m];
    assert Believes(w, m, x);
    var Updating(a, version) := x.pc;
    if w.agents[a].Version() == version && !result.Rejected? {
      TakeKeepsSafe(w, m, a);
      var taken := Relabel(At(w, m, Idle), a, Some(m));
      WithIsLast(w.agents[a], Some(m));
      MachineKeepsSafe(taken, m, v.machines[m]);
      assert v == taken.(machines := taken.machines[m := v.machines[m]]);
    } else {
      MachineKeepsSafe(w, m, x.(pc := Idle));
    }
  }

  lemma StepKeepsSafe(w: World, s: Step)
    requires Safe(w) && !(s.Release? && s.finalizerLost)
    ensures Safe(Apply(w, s))
  {
    if Enabled(w, s) {
      match s
      case AddAgent(a) => NewAgentKeepsSafe(w, a);
      case Touch(a, ready) => TouchKeepsSafe(w, a, ready);
      case AddMachine(m) => MachineKeepsSafe(w, m, Machine(None, false, Idle));
      case MarkDeleted(m) => BelievesNow(w, m); MachineKeepsSafe(w, m, w.machines[m].(deleting := true));
      case Begin(m, found) =>
        MachineKeepsSafe(w, m, w.machines[m].(pc := if found.Some? then Recording(found.value) else Searching));
      case Pick(m, a, version) => BelievesNow(w, m); MachineKeepsSafe(w, m, w.machines[m].(pc := Updating(a, version)));
      case Update(m, result) => UpdateKeepsSafe(w, m, result);
      case Record(m, lost) => BelievesNow(w, m); MachineKeepsSafe(w, m, Apply(w, s).machines[m]);
      case Abandon(m) => BelievesNow(w, m); MachineKeepsSafe(w, m, w.machines[m].(pc := Idle));
      case Remove(m) =>
        ForgetKeepsSafe(w, m);
      case Release(m, _) => ReleaseKeepsSafe(w, m);
    }
  }

  lemma BelievesNow(w: World, m: Id)
    requires Safe(w) && m in w.machines
    ensures Believes(w, m, w.machines[m])
  {
  }

  lemma ForgetKeepsSafe(w: World, m: Id)
    requires Safe(w)
    ensures Safe(w.(machines := w.machines - {m}))
  {
    var v := w.(machines := w.machines - {m});
    forall n | n in v.machines ensures Believes(v, n, v.machines[n]) {
      assert Believes(w, n, w.machines[n]);
    }
  }

  // ---- Releases split from their finalizer removal ----------------------------------------------

  /** The world without the machines that have released their agent. */
  function Rest(w: World): World { World(w.agents, w.machines - w.stale, {}) }

  /** A machine that has released its agent waits for its finalizer to go. */
  predicate Gone(w: World, m: Id) {
    m in w.machines && w.machines[m].deleting && w.machines[m].pc.Idle? && w.machines[m].ref.Some?
  }

  ghost predicate Steady(w: World) {
    Safe(Rest(w)) && forall m | m in w.stale :: Gone(w, m)
  }

  /** The test that the release leaves out: the agent's label is the machine's own, or clear. */
  predicate Guarded(w: World, s: Step) {
    s.Release? && Enabled(w, s) ==>
      w.agents[w.machines[s.m].ref.value].Holds(s.m) || w.agents[w.machines[s.m].ref.value].Free()
  }

  predicate GuardedRun(w: World, steps: seq<Step>)
    decreases |steps|
  {
    steps != [] ==> Guarded(w, steps[0]) && GuardedRun(Apply(w, steps[0]), steps[1..])
  }

  /** What a release does to the others: its agent's label is cleared. */
  lemma ReleaseOnRest(w: World, m: Id, finalizerLost: bool)
    requires Enabled(w, Release(m, finalizerLost))
    ensures var v := Rest(w).(machines := Rest(w).machines - {m});
            Rest(Apply(w, Release(m, finalizerLost))) == Relabel(v, w.machines[m].ref.value, None)
  {
    var u := Apply(w, Release(m, finalizerLost));
    assert u.machines - u.stale == (w.machines - w.stale) - {m};
  }

  /** A release leaves the others in order exactly when none of them records its agent or is about to. */
  lemma ReleaseKeepsSteadyExactly(w: World, m: Id, finalizerLost: bool)
    requires Steady(w) && Enabled(w, Release(m, finalizerLost))
    ensures var a := w.machines[m].ref.value;
            Steady(Apply(w, Release(m, finalizerLost))) <==>
            forall n | n in w.machines && n !in w.stale && n != m ::
              w.machines[n].ref != Some(a) && w.machines[n].pc != Recording(a)
  {
    var a := w.machines[m].ref.value;
    var v := Rest(w).(machines := Rest(w).machines - {m});
    ForgetKeepsSafe(Rest(w), m);
    DropKeepsSafe(v, a);
    ReleaseOnRest(w, m, finalizerLost);
    assert forall n :: n in v.machines <==> n in w.machines && n !in w.stale && n != m;
  }

  lemma GuardedReleaseKeepsSteady(w: World, m: Id, finalizerLost: bool)
    requires Steady(w) && Enabled(w, Release(m, finalizerLost)) && Guarded(w, Release(m, finalizerLost))
    ensures Steady(Apply(w, Release(m, finalizerLost)))
  {
    var a := w.machines[m].ref.value;
    forall n | n in w.machines && n !in w.stale && n != m
      ensures w.machines[n].ref != Some(a) && w.machines[n].pc != Recording(a)
    {
      BelievesNow(Rest(w), n);
    }
    ReleaseKeepsSteadyExactly(w, m, finalizerLost);
  }

  /** Steps other than releases do to the others what they do in their own world. */
  lemma StepOnRest(w: World, s: Step)
    requires Steady(w) && !s.Release?
    ensures Rest(Apply(w, s)) == Rest(w) || Rest(Apply(w, s)) == Apply(Rest(w), s)
    ensures Apply(w, s).stale == w.stale && forall m | m in w.stale :: Gone(Apply(w, s), m)
  {
    assert forall m | m in w.stale :: Gone(w, m);
    var v := Apply(w, s);
    match s
    case AddAgent(a) =>
    case Touch(a, ready) =>
    case AddMachine(m) =>
      if m !in w.machines { assert v.machines - v.stale == (w.machines - w.stale)[m := v.machines[m]]; }
    case MarkDeleted(m) => OneMachineOnRest(w, v, m);
    case Begin(m, found) => OneMachineOnRest(w, v, m);
    case Pick(m, a, version) => OneMachineOnRest(w, v, m);
    case Update(m, result) => OneMachineOnRest(w, v, m);
    case Record(m, lost) => OneMachineOnRest(w, v, m);
    case Abandon(m) => OneMachineOnRest(w, v, m);
    case Remove(m) => if Enabled(w, s) { assert v.machines - v.stale == (w.machines - w.stale) - {m}; }
  }

  lemma OneMachineOnRest(w: World, v: World, m: Id)
    requires v.stale == w.stale && (v == w || (m in w.machines && m in v.machines))
    requires v == w || v.machines == w.machines[m := v.machines[m]]
    ensures v != w ==>
              v.machines - v.stale ==
              if m in w.stale then w.machines - w.stale else (w.machines - w.stale)[m := v.machines[m]]
  {
  }

  lemma StepKeepsSteady(w: World, s: Step)
    requires Steady(w) && Guarded(w, s)
    ensures Steady(Apply(w, s))
  {
    if s.Release? {
      if Enabled(w, s) { GuardedReleaseKeepsSteady(w, s.m, s.finalizerLost); }
    } else {
      StepOnRest(w, s);
      StepKeepsSafe(Rest(w), s);
    }
  }

  lemma {:induction false} RunKeepsSteady(w: World, steps: seq<Step>)
    requires Steady(w) && GuardedRun(w, steps)
    ensures Steady(Run(w, steps))
    decreases |steps|
  {
    if steps != [] {
      StepKeepsSteady(w, steps[0]);
      RunKeepsSteady(Apply(w, steps[0]), steps[1..]);
    }
  }

  /** Without a split release, every release meets the guard. */
  lemma {:induction false} UnsplitIsGuarded(w: World, steps: seq<Step>)
    requires Safe(w) && w.stale == {} && forall s | s in steps :: !(s.Release? && s.finalizerLost)
    ensures GuardedRun(w, steps) && Run(w, steps).stale == {}
    decreases |steps|
  {
    if steps != [] {
      var s := steps[0];
      assert s in steps;
      if s.Release? && Enabled(w, s) { BelievesNow(w, s.m); }
      StepKeepsSafe(w, s);
      UnsplitIsGuarded(Apply(w, s), steps[1..]);
    }
  }

  // ---- Labels alone: releases split from their finalizer removal included -----------------------

  /** A machine that looks for an agent holds none, and its snapshot was true once. */
  predicate Seeking(w: World, m: Id, x: Machine) {
    && (x.pc.Searching? || x.pc.Updating? ==> forall a | a in w.agents :: !w.agents[a].Holds(m))
    && (x.pc.Updating? ==>
          x.pc.agent in w.agents && 0 < x.pc.version <= w.agents[x.pc.agent].Version()
          && w.agents[x.pc.agent].history[x.pc.version - 1] == Snapshot(None, true))
  }

  ghost predicate Labelled(w: World) {
    && (forall a | a in w.agents :: w.agents[a].history != [])
    && Exclusive(w)
    && (forall m | m in w.machines :: Seeking(w, m, w.machines[m]))
  }

  lemma ClearKeepsLabelled(w: World, a: Id)
    requires Labelled(w) && a in w.agents
    ensures Labelled(Relabel(w, a, None))
  {
    var v := Relabel(w, a, None);
    WithIsLast(w.agents[a], None);
    forall m | m in v.machines ensures Seeking(v, m, v.machines[m]) {
      assert Seeking(w, m, w.machines[m]);
    }
  }

  lemma TouchKeepsLabelled(w: World, a: Id, ready: bool)
    requires Labelled(w) && a in w.agents
    ensures Labelled(w.(agents := w.agents[a := w.agents[a].Touched(ready)]))
  {
    var v := w.(agents := w.agents[a := w.agents[a].Touched(ready)]);
    TouchedIsLast(w.agents[a], ready);
    forall m | m in v.machines ensures Seeking(v, m, v.machines[m]) {
      assert Seeking(w, m, w.machines[m]);
    }
  }

  lemma MachineKeepsLabelled(w: World, m: Id, x: Machine)
    requires Labelled(w) && Seeking(w, m, x)
    ensures Labelled(w.(machines := w.machines[m := x]))
  {
    var v := w.(machines := w.machines[m := x]);
    forall n | n in v.machines ensures Seeking(v, n, v.machines[n]) {
      if n != m { assert Seeking(w, n, w.machines[n]); }
    }
  }

  lemma FewerMachinesKeepLabelled(w: World, m: Id)
    requires Labelled(w)
    ensures Labelled(w.(machines := w.machines - {m}))
  {
    var v := w.(machines := w.machines - {m});
    forall n | n in v.machines ensures Seeking(v, n, v.machines[n]) {
      assert Seeking(w, n, w.machines[n]);
    }
  }

  lemma AddAgentKeepsLabelled(w: World, a: Id)
    requires Labelled(w) && a !in w.agents
    ensures Labelled(w.(agents := w.agents[a := NEW_AGENT]))
  {
    var v := w.(agents := w.agents[a := NEW_AGENT]);
    forall n | n in v.machines ensures Seeking(v, n, v.machines[n]) {
      assert Seeking(w, n, w.machines[n]);
    }
  }

  lemma TakeKeepsLabelled(w: World, m: Id, a: Id, x: Machine)
    requires Labelled(w) && m in w.machines && a in w.agents && w.agents[a].Free() && (x.pc.Idle? || x.pc.Recording?)
    requires forall b | b in w.agents :: !w.agents[b].Holds(m)
    ensures Labelled(Relabel(w, a, Some(m)).(machines := w.machines[m := x]))
  {
    var v := Relabel(w, a, Some(m)).(machines := w.machines[m := x]);
    WithIsLast(w.agents[a], Some(m));
    forall n | n in v.machines ensures Seeking(v, n, v.machines[n]) {
      if n != m { assert Seeking(w, n, w.machines[n]); }
    }
  }

  lemma UpdateKeepsLabelled(w: World, m: Id, result: WriteResult)
    requires Labelled(w) && Enabled(w, Update(m, result))
    ensures Labelled(Apply(w, Update(m, result)))
  {
    var v := Apply(w, Update(m, result));
    var x := w.machines[m];
    assert Seeking(w, m, x);
    if w.agents[x.pc.agent].Version() == x.pc.version && !result.Rejected? {
      TakeKeepsLabelled(w, m, x.pc.agent, v.machines[m]);
      assert v == Relabel(w, x.pc.agent, Some(m)).(machines := w.machines[m := v.machines[m]]);
    } else {
      MachineKeepsLabelled(w, m, x.(pc := Idle));
    }
  }

  lemma SeeksNow(w: World, m: Id)
    requires Labelled(w) && m in w.machines
    ensures Seeking(w, m, w.machines[m])
  {
  }

  lemma StepKeepsLabelled(w: World, s: Step)
    requires Labelled(w)
    ensures Labelled(Apply(w, s))
  {
    if Enabled(w, s) {
      match s
      case AddAgent(a) => AddAgentKeepsLabelled(w, a);
      case Touch(a, ready) => TouchKeepsLabelled(w, a, ready);
      case AddMachine(m) => MachineKeepsLabelled(w, m, Machine(None, false, Idle));
      case MarkDeleted(m) => SeeksNow(w, m); MachineKeepsLabelled(w, m, w.machines[m].(deleting := true));
      case Begin(m, found) =>
        MachineKeepsLabelled(w, m, w.machines[m].(pc := if found.Some? then Recording(found.value) else Searching));
      case Pick(m, a, version) =>
        SeeksNow(w, m);
        MachineKeepsLabelled(w, m, w.machines[m].(pc := Updating(a, version)));
      case Update(m, result) => UpdateKeepsLabelled(w, m, result);
      case Record(m, lost) => MachineKeepsLabelled(w, m, Apply(w, s).machines[m]);
      case Abandon(m) => MachineKeepsLabelled(w, m, w.machines[m].(pc := Idle));
      case Remove(m) => FewerMachinesKeepLabelled(w, m);
      case Release(m, finalizerLost) =>
        var v := Relabel(w, w.machines[m].ref.value, None);
        ClearKeepsLabelled(w, w.machines[m].ref.value);
        if !finalizerLost { FewerMachinesKeepLabelled(v, m); }
    }
  }

  lemma {:induction false} RunKeepsLabelled(w: World, steps: seq<Step>)
    requires Labelled(w)
    ensures Labelled(Run(w, steps))
    decreases |steps|
  {
    if steps != [] {
      StepKeepsLabelled(w, steps[0]);
      RunKeepsLabelled(Apply(w, steps[0]), steps[1..]);
    }
  }

  /** Claim safety, for any number of machines and agents in any interleaving: a machine name labels at most one
      agent; and in runs whose releases find their own label or none, a set AgentRef points at an agent with that
      label, unless the machine has released it already and only its finalizer is left. */
  lemma ClaimsAreExclusive(steps: seq<Step>)
    ensures var w := Run(EMPTY, steps);
            && Exclusive(w)
            && (GuardedRun(EMPTY, steps) ==>
                  && (forall m | m in w.machines && m !in w.stale && w.machines[m].ref.Some? ::
                        w.machines[m].ref.value in w.agents && w.agents[w.machines[m].ref.value].Holds(m))
                  && (forall m | m in w.stale :: m in w.machines && w.machines[m].deleting))
  {
    RunKeepsLabelled(EMPTY, steps);
    var w := Run(EMPTY, steps);
    if GuardedRun(EMPTY, steps) {
      RunKeepsSteady(EMPTY, steps);
      forall m | m in w.machines && m !in w.stale && w.machines[m].ref.Some?
        ensures w.machines[m].ref.value in w.agents && w.agents[w.machines[m].ref.value].Holds(m)
      {
        BelievesNow(Rest(w), m);
      }
      forall m | m in w.stale ensures m in w.machines && w.machines[m].deleting { assert Gone(w, m); }
    }
  }

  /** Two machines never record the same agent, in such runs. */
  lemma AgentsAreNotShared(steps: seq<Step>)
    ensures var w := Run(EMPTY, steps);
            GuardedRun(EMPTY, steps) ==>
              forall m, n {:trigger w.machines[m], w.machines[n]} |
                m in w.machines && n in w.machines && m !in w.stale && n !in w.stale
                && w.machines[m].ref.Some? && w.machines[m].ref == w.machines[n].ref :: m == n
  {
    ClaimsAreExclusive(steps);
  }

  /** A label is taken from a clear one, at a version that is ready. */
  predicate TakenWhenReady(x: Agent) {
    && (x.history != [] ==> x.history[0].holder.None?)
    && forall i | 0 < i < |x.history| && x.history[i].holder.Some? ::
         x.history[i].holder == x.history[i - 1].holder || x.history[i - 1] == Snapshot(None, true)
  }

  lemma OneMoreVersion(x: Agent, s: Snapshot)
    requires TakenWhenReady(x) && x.history != []
    requires s.holder.Some? ==> s.holder == Last(x.history).holder || Last(x.history) == Snapshot(None, true)
    ensures TakenWhenReady(Agent(x.history + [s]))
  {
    var y := Agent(x.history + [s]);
    forall i | 0 < i < |y.history| && y.history[i].holder.Some?
      ensures y.history[i].holder == y.history[i - 1].holder || y.history[i - 1] == Snapshot(None, true)
    {
      if i < |x.history| { assert y.history[i] == x.history[i]; }
    }
  }

  predicate AllTakenWhenReady(w: World) { forall a | a in w.agents :: TakenWhenReady(w.agents[a]) }

  lemma StepTakesWhenReady(w: World, s: Step)
    requires Labelled(w) && AllTakenWhenReady(w)
    ensures AllTakenWhenReady(Apply(w, s))
  {
    if Enabled(w, s) {
      match s
      case Touch(a, ready) => OneMoreVersion(w.agents[a], Snapshot(Last(w.agents[a].history).holder, ready));
      case Update(m, result) =>
        var a := w.machines[m].pc.agent;
        SeeksNow(w, m);
        if w.agents[a].Version() == w.machines[m].pc.version {
          OneMoreVersion(w.agents[a], Snapshot(Some(m), w.agents[a].IsReady()));
        }
      case Release(m, _) =>
        var a := w.machines[m].ref.value;
        OneMoreVersion(w.agents[a], Snapshot(None, w.agents[a].IsReady()));
      case _ =>
    }
  }

  lemma {:induction false} RunTakesWhenReady(w: World, steps: seq<Step>)
    requires Labelled(w) && AllTakenWhenReady(w)
    ensures AllTakenWhenReady(Run(w, steps))
    decreases |steps|
  {
    if steps != [] {
      StepKeepsLabelled(w, steps[0]);
      StepTakesWhenReady(w, steps[0]);
      RunTakesWhenReady(Apply(w, steps[0]), steps[1..]);
    }
  }

  /** In every run, over the whole history of every agent: a machine's label follows its own or a clear one, and where
      it follows a clear one the agent was ready then. So no machine takes over a label, or an agent that is not ready,
      however old the snapshot was that it searched. */
  lemma OnlyReadyAgentsAreTaken(steps: seq<Step>, a: Id, i: nat, m: Id)
    requires a in Run(EMPTY, steps).agents && i < |Run(EMPTY, steps).agents[a].history|
    requires Run(EMPTY, steps).agents[a].history[i].holder == Some(m)
    ensures var h := Run(EMPTY, steps).agents[a].history;
            i > 0 && (h[i - 1].holder == Some(m) || (h[i - 1].holder.None? && h[i - 1].ready))
  {
    RunTakesWhenReady(EMPTY, steps);
    assert TakenWhenReady(Run(EMPTY, steps).agents[a]);
  }

  /** In every run the own-label list of a machine finds nothing or exactly one agent: the error for more than one is
      unreachable. */
  lemma OwnLabelIsUnambiguous(steps: seq<Step>, m: Id)
    ensures exists found :: OwnLabel(Run(EMPTY, steps), m, found)
  {
    RunKeepsLabelled(EMPTY, steps);
    var w := Run(EMPTY, steps);
    if a :| a in w.agents && w.agents[a].Holds(m) {
      assert OwnLabel(w, m, Some(a));
    } else {
      assert OwnLabel(w, m, None);
    }
  }

  predicate Ends(s: Step, m: Id) {
    match s
    case Remove(n) => n == m
    case Release(n, _) => n == m
    case _ => false
  }

  /** AgentRef never changes once set, and a label once taken stays, until the machine itself goes; whatever releases
      of other machines are split, as long as they meet the guard. */
  lemma {:induction false} ClaimIsKept(w: World, m: Id, a: Id, steps: seq<Step>)
    requires Steady(w) && m in w.machines && m !in w.stale && a in w.agents && w.agents[a].Holds(m)
    requires GuardedRun(w, steps) && forall s | s in steps :: !Ends(s, m)
    ensures var v := Run(w, steps);
            && Steady(v) && m in v.machines && m !in v.stale && a in v.agents && v.agents[a].Holds(m)
            && (w.machines[m].ref == Some(a) ==> v.machines[m].ref == Some(a))
            && (v.machines[m].ref.Some? ==> v.machines[m].ref == Some(a))
    decreases |steps|
  {
    BelievesNow(Rest(w), m);
    if steps != [] {
      var s := steps[0];
      assert s in steps;
      ClaimStep(w, m, a, s);
      StepKeepsSteady(w, s);
      ClaimIsKept(Apply(w, s), m, a, steps[1..]);
    }
  }

  lemma ClaimStep(w: World, m: Id, a: Id, s: Step)
    requires Steady(w) && m in w.machines && m !in w.stale && a in w.agents && w.agents[a].Holds(m)
    requires Guarded(w, s) && !Ends(s, m)
    ensures var v := Apply(w, s);
            && m in v.machines && m !in v.stale && a in v.agents && v.agents[a].Holds(m)
            && (w.machines[m].ref == Some(a) ==> v.machines[m].ref == Some(a))
  {
    BelievesNow(Rest(w), m);
    if Enabled(w, s) {
      match s
      case Touch(b, ready) => TouchedIsLast(w.agents[b], ready);
      case Update(n, result) =>
        assert n !in w.stale;
        BelievesNow(Rest(w), n);
        WithIsLast(w.agents[w.machines[n].pc.agent], Some(n));
      case Release(n, _) => WithIsLast(w.agents[w.machines[n].ref.value], None);
      case _ =>
    }
  }

  /** A claim whose reply is lost leaves the label and no record. Whatever follows, until the machine itself goes: its
      own-label list finds that agent and no other, and an AgentRef that is set is that agent. */
  lemma LostClaimIsFound(w: World, m: Id, steps: seq<Step>)
    requires Steady(w) && m in w.machines && w.machines[m].pc.Updating? && w.machines[m].ref.None?
    requires var Updating(a, version) := w.machines[m].pc; a in w.agents && w.agents[a].Version() == version
    requires GuardedRun(Apply(w, Update(m, ReplyLost)), steps) && forall s | s in steps :: !Ends(s, m)
    ensures var a := w.machines[m].pc.agent;
            var v := Run(Apply(w, Update(m, ReplyLost)), steps);
            && m in v.machines && (v.machines[m].ref.Some? ==> v.machines[m].ref == Some(a))
            && forall found :: OwnLabel(v, m, found) <==> found == Some(a)
  {
    var a := w.machines[m].pc.agent;
    assert m !in w.stale;
    var u := Apply(w, Update(m, ReplyLost));
    StepKeepsSteady(w, Update(m, ReplyLost));
    WithIsLast(w.agents[a], Some(m));
    ClaimIsKept(u, m, a, steps);
    var v := Run(u, steps);
    forall found ensures OwnLabel(v, m, found) <==> found == Some(a) {
      assert v.agents[a].Holds(m);
    }
  }

  // ---- Runs a reader would not expect -----------------------------------------------------------

  lemma RunCons(w: World, s: Step, rest: seq<Step>)
    ensures Run(w, [s] + rest) == Run(Apply(w, s), rest)
  {
    assert ([s] + rest)[1..] == rest;
  }

  lemma RunFour(w: World, s0: Step, s1: Step, s2: Step, s3: Step, rest: seq<Step>)
    ensures Run(w, [s0, s1, s2, s3] + rest) == Run(Apply(Apply(Apply(Apply(w, s0), s1), s2), s3), rest)
  {
    var w1, w2, w3 := Apply(w, s0), Apply(Apply(w, s0), s1), Apply(Apply(Apply(w, s0), s1), s2);
    RunCons(w, s0, [s1, s2, s3] + rest);
    RunCons(w1, s1, [s2, s3] + rest);
    RunCons(w2, s2, [s3] + rest);
    RunCons(w3, s3, rest);
    assert [s0] + ([s1, s2, s3] + rest) == [s0, s1, s2, s3] + rest;
    assert [s1] + ([s2, s3] + rest) == [s1, s2, s3] + rest && [s2] + ([s3] + rest) == [s2, s3] + rest;
  }

  /** An undisturbed claim of a free agent succeeds. */
  lemma ClaimSucceeds(w: World, m: Id, a: Id, rest: seq<Step>)
    requires m in w.machines && w.machines[m] == Machine(None, false, Idle) && OwnLabel(w, m, None)
    requires a in w.agents && w.agents[a].Free() && w.agents[a].IsReady()
    ensures Run(w, [Begin(m, None), Pick(m, a, w.agents[a].Version()), Update(m, Applied), Record(m, false)] + rest)
            == Run(World(w.agents[a := w.agents[a].With(Some(m))],
                         w.machines[m := Machine(Some(a), false, Idle)], w.stale), rest)
  {
    var n := w.agents[a].Version();
    RunFour(w, Begin(m, None), Pick(m, a, n), Update(m, Applied), Record(m, false), rest);
    var w1 := Apply(w, Begin(m, None));
    assert w1 == w.(machines := w.machines[m := Machine(None, false, Searching)]);
    var w2 := Apply(w1, Pick(m, a, n));
    assert w2 == w.(machines := w.machines[m := Machine(None, false, Updating(a, n))]);
    var w3 := Apply(w2, Update(m, Applied));
    assert w3 == World(w.agents[a := w.agents[a].With(Some(m))],
                       w.machines[m := Machine(None, false, Recording(a))], w.stale);
    var w4 := Apply(w3, Record(m, false));
    assert w4.machines == w.machines[m := Machine(Some(a), false, Idle)];
  }

  /** The release does not look at the holder of the label. After a release whose finalizer patch was lost, another
      machine takes the agent, and the second release of the first machine takes it away again. */
  lemma SplitReleaseStealsAgent(w: World, m: Id, n: Id, a: Id)
    requires m != n && m in w.machines && n in w.machines && a in w.agents && w.agents[a].Holds(m)
    requires w.agents[a].IsReady() && w.machines[m] == Machine(Some(a), true, Idle)
    requires w.machines[n] == Machine(None, false, Idle) && OwnLabel(w, n, None)
    ensures var v := Run(Apply(w, Release(m, true)),
                         [Begin(n, None), Pick(n, a, w.agents[a].Version() + 1), Update(n, Applied), Record(n, false)]
                         + [Release(m, false)]);
            && n in v.machines && v.machines[n] == Machine(Some(a), false, Idle)
            && a in v.agents && !v.agents[a].Holds(n)
  {
    var w1 := Apply(w, Release(m, true));
    WithIsLast(w.agents[a], None);
    assert w1.agents[a].Version() == w.agents[a].Version() + 1;
    ClaimSucceeds(w1, n, a, [Release(m, false)]);
    var w2 := World(w1.agents[a := w1.agents[a].With(Some(n))],
                    w1.machines[n := Machine(Some(a), false, Idle)], w1.stale);
    assert [Release(m, false)][1..] == [];
    assert Run(w2, [Release(m, false)]) == Run(Apply(w2, Release(m, false)), [Release(m, false)][1..]);
    WithIsLast(w2.agents[a], None);
  }

  /** Another machine loses its label on an agent. */
  ghost predicate TakesFromOther(w: World, m: Id, v: World) {
    exists n, a :: n != m && a in w.agents && a in v.agents && w.agents[a].Holds(n) && !v.agents[a].Holds(n)
  }

  /** A release takes an agent from another machine exactly when the label there names another one; and of the machines
      that have not released yet, none does. */
  lemma ReleaseStealsExactly(w: World, m: Id, finalizerLost: bool)
    requires Steady(w) && Enabled(w, Release(m, finalizerLost))
    ensures TakesFromOther(w, m, Apply(w, Release(m, finalizerLost))) <==> !Guarded(w, Release(m, finalizerLost))
    ensures !Guarded(w, Release(m, finalizerLost)) ==> m in w.stale
  {
    var a := w.machines[m].ref.value;
    var v := Apply(w, Release(m, finalizerLost));
    WithIsLast(w.agents[a], None);
    assert Rest(w).agents[a].history != [];
    if m !in w.stale { BelievesNow(Rest(w), m); }
    if !Guarded(w, Release(m, finalizerLost)) {
      var n := Last(w.agents[a].history).holder.value;
      assert w.agents[a].Holds(n) && !v.agents[a].Holds(n);
    }
  }
}

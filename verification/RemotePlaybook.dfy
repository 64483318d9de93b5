/**
 The management Playbook controller (cluster-api-provider-kubeforce/controllers/playbook_controller.go) together with
 the agents' controllers that run the external playbook it creates (agent/pkg/controllers/playbook.go).

 `World` holds one management playbook and what the agents store for it; `Apply` makes one API call of one pass, one
 user edit, or one pass of the agent's controller.
 */
module RemotePlaybook {
  import opened Common
  import opened Defaulting
  import Rollout = AgentRollout
  import Retry = PlaybookRetry

  datatype Spec = Spec(agentRef: string, files: Files, entrypoint: string)

  datatype Phase = Empty | Provisioning | Synchronization | Completed | FailedPhase | Deleting | UnknownPhase

  /** `execution` and `failed` are the copies of the external conditions; `failure`: a failure reason is set. */
  datatype Status = Status(
    externalName: Option<Name>, externalPhase: Retry.Phase, synced: Condition, execution: Condition, failed: Condition,
    failure: bool, phase: Phase)

  const NEW_STATUS := Status(None, Retry.NoPhase, Unset, Unset, Unset, false, Empty)

  datatype External = External(name: Name, playbook: Rollout.Playbook)

  /** How reaching the agent ends, up to its client. */
  datatype Reach = AgentMissing | AgentPaused | AgentUnhealthy | ClientFails | Reachable

  // ---- One pass ---------------------------------------------------------------------------------

  predicate Terminal(st: Status) { st.execution == IsTrue || st.failed == IsTrue }

  function Failed(st: Status): Status { st.(failure := true, synced := IsFalse) }

  function Override(mine: Condition, theirs: Condition): Condition { if theirs == Unset then mine else theirs }

  /** Name, phase and conditions of the external playbook, and no failure. */
  function Copy(st: Status, e: External): Status {
    var s := e.playbook.status;
    st.(failure := false, externalName := Some(e.name), externalPhase := s.phase,
        execution := Override(st.execution, s.execution), failed := Override(st.failed, s.failure), synced := IsTrue)
  }

  function Created(st: Status, name: Name, r: WriteResult): Status {
    if r.Applied?
    then st.(externalName := Some(name), externalPhase := Retry.NoPhase, failure := false, synced := IsTrue)
    else Failed(st)
  }

  /** The deferred phase: a failure on record comes first; an external failure becomes one. */
  function WithPhase(st: Status): Status {
    if st.failure then st.(phase := FailedPhase)
    else if st.failed == IsTrue then st.(phase := FailedPhase, failure := true)
    else if st.execution == IsTrue then st.(phase := Completed)
    else if st.synced == IsTrue then st.(phase := Synchronization)
    else if st.phase.Empty? then st.(phase := Provisioning)
    else st.(phase := UnknownPhase)
  }

  datatype Plan = Stop(status: Status) | DoCreate

  function PlanAfterList(st: Status, listing: seq<External>, listed: bool): Plan {
    if !listed || |listing| > 1 then Stop(Failed(st))
    else if |listing| == 0 then (if st.externalName.Some? then Stop(Failed(st)) else DoCreate)
    else if st.externalName.Some? && st.externalName != Some(listing[0].name) then Stop(Failed(st))
    else Stop(Copy(st, listing[0]))
  }

  function CreateAt(listing: seq<External>, s: Spec, name: Name, now: int, generation: nat): seq<External> {
    listing + [External(name, Rollout.StorePlaybook(0, now, PlaybookSpec(None, s.files, s.entrypoint), generation))]
  }

  // ---- The machine ------------------------------------------------------------------------------

  datatype Pc = Idle | Began(generation: nat) | Creating(generation: nat) | Committing(status: Status)

  type Stores = map<string, seq<External>>

  datatype World = World(specs: seq<Spec>, status: Status, stores: Stores, pc: Pc)

  datatype Step =
    | Edit(spec: Spec)
    | Begin(reach: Reach)
    | Find(listed: bool)
    | Create(id: nat, now: int, result: WriteResult)
    | Commit(lost: bool)
    | Crash
    | AgentPass(agent: string, input: Retry.Input)

  function NewWorld(s: Spec): World { World([s], NEW_STATUS, map[], Idle) }

  predicate Reads(w: World) {
    w.specs != [] && (w.pc.Began? || w.pc.Creating? ==> 0 < w.pc.generation <= |w.specs|)
  }

  /** The spec of the pass in progress. */
  function SpecRead(w: World): Spec
    requires Reads(w) && (w.pc.Began? || w.pc.Creating?)
  {
    w.specs[w.pc.generation - 1]
  }

  function BeginPass(st: Status, g: nat, reach: Reach): Pc {
    if Terminal(st) then Committing(st)
    else match reach
      case Reachable => Began(g)
      case AgentPaused => Committing(st)
      case _ => Committing(Failed(st))
  }

  function Apply(w: World, s: Step): World
    requires Reads(w)
  {
    match s
    case Edit(spec) => w.(specs := w.specs + [spec])
    case Begin(reach) => if w.pc.Idle? then w.(pc := BeginPass(w.status, |w.specs|, reach)) else w
    case Find(listed) =>
      if !w.pc.Began? then w
      else
        (match PlanAfterList(w.status, Held(w.stores, SpecRead(w).agentRef), listed)
         case Stop(st) => w.(pc := Committing(st))
         case DoCreate => w.(pc := Creating(w.pc.generation)))
    case Create(id, now, result) =>
      if !w.pc.Creating? then w
      else
        var g, spec := w.pc.generation, SpecRead(w);
        var held, name := Held(w.stores, spec.agentRef), Name(spec.agentRef, id);
        if exists e | e in held :: e.name == name then w
        else
          w.(stores := if result.Rejected? then w.stores
                       else w.stores[spec.agentRef := CreateAt(held, spec, name, now, g)],
             pc := Committing(Created(w.status, name, result)))
    case Commit(lost) =>
      if !w.pc.Committing? then w
      else w.(status := if lost then w.status else WithPhase(w.pc.status), pc := Idle)
    case Crash => w.(pc := Idle)
    case AgentPass(agent, input) =>
      if |Held(w.stores, agent)| != 1 then w
      else
        var e := w.stores[agent][0];
        w.(stores := w.stores[agent := [e.(playbook := e.playbook.Pass(input))]])
  }

  // ---- Invariants -------------------------------------------------------------------------------

  /** A status is true of the external playbook that it names: its conditions are the playbook's last ones. */
  predicate Fits(st: Status, stores: Stores) {
    && (st.externalName.Some? ==>
          var held := Held(stores, st.externalName.value.agent);
          && |held| == 1 && held[0].name == st.externalName.value
          && (st.execution == IsTrue ==> held[0].playbook.Executed())
          && (st.failed == IsTrue ==> held[0].playbook.status.failure == IsTrue))
    && (st.execution == IsTrue ==> st.externalName.Some? && st.failed != IsTrue && !st.failure)
    && (st.failed == IsTrue ==> st.externalName.Some?)
  }

  /** The external playbook is the copy of the spec it was created from, and its own controller is in order. */
  predicate Faithful(w: World, e: External) {
    var p := e.playbook;
    && 0 < p.generation <= |w.specs|
    && p.spec.files == w.specs[p.generation - 1].files && p.spec.entrypoint == w.specs[p.generation - 1].entrypoint
    && !(p.status.execution == IsTrue && p.status.failure == IsTrue)
    && (p.status.execution == IsTrue ==> p.successes > 0)
  }

  /** The stored phase is the one its status calls for. */
  predicate PhaseFits(st: Status) {
    && (st.phase.Completed? <==> st.execution == IsTrue)
    && (st.failed == IsTrue ==> st.phase.FailedPhase?)
  }

  /** An agent holds at most one external playbook, under a name made for it. */
  predicate AtMostOneEach(w: World) {
    forall a | a in w.stores ::
      |w.stores[a]| <= 1 && (|w.stores[a]| == 1 ==> w.stores[a][0].name.agent == a && Faithful(w, w.stores[a][0]))
  }

  predicate Inv(w: World) {
    && Reads(w) && AtMostOneEach(w)
    && Fits(w.status, w.stores) && PhaseFits(w.status)
    && (w.pc.Creating? ==> Held(w.stores, SpecRead(w).agentRef) == [] && w.status.externalName.None?)
    && (w.pc.Began? || w.pc.Creating? ==> !Terminal(w.status))
    && (w.pc.Committing? ==>
          Fits(w.pc.status, w.stores)
          && (w.status.externalName.Some? ==> w.pc.status.externalName == w.status.externalName)
          && (Terminal(w.status) ==> w.pc.status == w.status))
  }

  lemma CreateKeepsInv(w: World, id: nat, now: int, result: WriteResult)
    requires Inv(w)
    ensures Inv(Apply(w, Create(id, now, result)))
  {
    if w.pc.Creating? {
      FixedPointsAreComplete(PlaybookSpec(None, SpecRead(w).files, SpecRead(w).entrypoint));
    }
  }

  /** A pass of an agent's controller keeps what any status says. */
  lemma AgentPassKeepsFits(st: Status, stores: Stores, agent: string, input: Retry.Input)
    requires Fits(st, stores) && |Held(stores, agent)| == 1
    ensures var e := Held(stores, agent)[0];
            Fits(st, stores[agent := [e.(playbook := e.playbook.Pass(input))]])
  {
    Rollout.PassKeepsEnd(Held(stores, agent)[0].playbook, input);
  }

  lemma AgentPassKeepsInv(w: World, agent: string, input: Retry.Input)
    requires Inv(w)
    ensures Inv(Apply(w, AgentPass(agent, input)))
  {
    if |Held(w.stores, agent)| == 1 {
      assert Faithful(w, w.stores[agent][0]);
      AgentPassKeepsFits(w.status, w.stores, agent, input);
      if w.pc.Committing? {
        AgentPassKeepsFits(w.pc.status, w.stores, agent, input);
      }
    }
  }

  lemma FindKeepsInv(w: World, listed: bool)
    requires Inv(w)
    ensures Inv(Apply(w, Find(listed)))
  {
    if w.pc.Began? {
      var held := Held(w.stores, SpecRead(w).agentRef);
      assert held != [] ==> SpecRead(w).agentRef in w.stores;
    }
  }

  lemma BeginKeepsInv(w: World, reach: Reach)
    requires Inv(w)
    ensures Inv(Apply(w, Begin(reach)))
  {
  }

  lemma CommitKeepsInv(w: World, lost: bool)
    requires Inv(w)
    ensures Inv(Apply(w, Commit(lost)))
  {
  }

  lemma StepKeepsInv(w: World, s: Step)
    requires Inv(w)
    ensures Inv(Apply(w, s))
  {
    match s
    case Create(id, now, result) => CreateKeepsInv(w, id, now, result);
    case AgentPass(agent, input) => AgentPassKeepsInv(w, agent, input);
    case Find(listed) => FindKeepsInv(w, listed);
    case Begin(reach) => BeginKeepsInv(w, reach);
    case Commit(lost) => CommitKeepsInv(w, lost);
    case _ =>
  }

  function Run(w: World, steps: seq<Step>): (r: World)
    requires Inv(w)
    ensures Inv(r)
    decreases |steps|
  {
    if steps == [] then w
    else
      StepKeepsInv(w, steps[0]);
      Run(Apply(w, steps[0]), steps[1..])
  }

  lemma NewInv(s: Spec)
    ensures Inv(NewWorld(s))
  {
  }

  lemma StepKeepsNames(w: World, s: Step, agent: string)
    requires Inv(w)
    ensures var v := Apply(w, s);
            && (Held(w.stores, agent) != [] ==>
                  |Held(v.stores, agent)| == 1 && Held(v.stores, agent)[0].name == Held(w.stores, agent)[0].name
                  && Held(v.stores, agent)[0].playbook.spec == Held(w.stores, agent)[0].playbook.spec)
            && (w.status.externalName.Some? ==>
                  v.status.externalName == w.status.externalName
                  && (Held(v.stores, agent) != [] ==> Held(w.stores, agent) != []))
  {
  }

  /** Whatever replies and patches are lost, an agent never holds more than one external playbook, and it is never
      rewritten. ExternalName, once written, never changes, and from then on nothing is created at any agent. */
  lemma {:induction false} AtMostOneExternal(w: World, steps: seq<Step>, agent: string)
    requires Inv(w)
    ensures var v := Run(w, steps);
            && |Held(v.stores, agent)| <= 1
            && (Held(w.stores, agent) != [] ==>
                  |Held(v.stores, agent)| == 1 && Held(v.stores, agent)[0].name == Held(w.stores, agent)[0].name
                  && Held(v.stores, agent)[0].playbook.spec == Held(w.stores, agent)[0].playbook.spec)
            && (w.status.externalName.Some? ==>
                  v.status.externalName == w.status.externalName
                  && (Held(v.stores, agent) != [] ==> Held(w.stores, agent) != []))
    decreases |steps|
  {
    if steps != [] {
      StepKeepsInv(w, steps[0]);
      StepKeepsNames(w, steps[0], agent);
      AtMostOneExternal(Apply(w, steps[0]), steps[1..], agent);
    }
  }

  /** An agent that holds none yet can come to hold one exactly while ExternalName is not on record: so a second agent
      gets one exactly when the spec moves to it before the first one's name was recorded. */
  lemma AnotherAgentGetsOneExactly(w: World, agent: string)
    requires Inv(w) && w.pc.Idle? && Held(w.stores, agent) == []
    ensures (exists steps :: Held(Run(w, steps).stores, agent) != []) <==> w.status.externalName.None?
  {
    if w.status.externalName.Some? {
      forall steps ensures Held(Run(w, steps).stores, agent) == [] {
        AtMostOneExternal(w, steps, agent);
      }
    } else {
      MovedSpecCreates(w, agent);
      assert Held(Run(w, MovingSteps(w, agent)).stores, agent) != [];
    }
  }

  /** An edit of the agent reference, and a pass that creates. */
  function MovingSteps(w: World, agent: string): seq<Step>
    requires w.specs != []
  {
    [Edit(Last(w.specs).(agentRef := agent)), Begin(Reachable), Find(true), Create(0, 0, Applied)]
  }

  lemma CreateValue(w: World)
    requires Reads(w) && w.pc.Creating? && Held(w.stores, SpecRead(w).agentRef) == []
    ensures Held(Apply(w, Create(0, 0, Applied)).stores, SpecRead(w).agentRef) != []
  {
  }

  lemma MovedSpecCreates(w: World, agent: string)
    requires Inv(w) && w.pc.Idle? && Held(w.stores, agent) == [] && w.status.externalName.None?
    ensures Held(Run(w, MovingSteps(w, agent)).stores, agent) != []
  {
    var s := Last(w.specs).(agentRef := agent);
    var w1 := w.(specs := w.specs + [s]);
    var w2 := w1.(pc := Began(|w1.specs|));
    var w3 := w1.(pc := Creating(|w1.specs|));
    assert !Terminal(w.status);
    assert w2 == Apply(w1, Begin(Reachable)) && w3 == Apply(w2, Find(true));
    CreateValue(w3);
    FourSteps(w, Edit(s), Begin(Reachable), Find(true), Create(0, 0, Applied), w1, w2, w3);
  }

  lemma RunCons(w: World, s: Step, rest: seq<Step>)
    requires Inv(w)
    ensures Inv(Apply(w, s)) && Run(w, [s] + rest) == Run(Apply(w, s), rest)
  {
    StepKeepsInv(w, s);
    assert ([s] + rest)[1..] == rest;
  }

  lemma FourSteps(w: World, p: Step, q: Step, r: Step, s: Step, w1: World, w2: World, w3: World)
    requires Inv(w) && w1 == Apply(w, p)
    requires Reads(w1) && w2 == Apply(w1, q)
    requires Reads(w2) && w3 == Apply(w2, r)
    ensures Inv(w3) && Run(w, [p, q, r, s]) == Apply(w3, s)
  {
    RunCons(w, p, [q, r, s]);
    RunCons(w1, q, [r, s]);
    RunCons(w2, r, [s]);
    RunCons(w3, s, []);
    assert [p] + [q, r, s] == [p, q, r, s] && [q] + [r, s] == [q, r, s] && [r] + [s] == [r, s] && [s] + [] == [s];
  }

  /** Completed means that the external playbook, a copy of the spec at its creation, was run without an error at the
      agent it was created for; and a copied failure means that the external playbook used up its attempts. */
  lemma CompletedMeansRun(s: Spec, steps: seq<Step>)
    ensures Inv(NewWorld(s))
    ensures var w := Run(NewWorld(s), steps);
            w.status.phase.Completed? || w.status.failed == IsTrue ==>
              w.status.externalName.Some?
              && var held := Held(w.stores, w.status.externalName.value.agent);
                 |held| == 1 && Faithful(w, held[0])
                 && (w.status.phase.Completed? ==> held[0].playbook.Executed())
                 && (w.status.failed == IsTrue ==>
                       w.status.phase.FailedPhase? && held[0].playbook.status.failure == IsTrue)
  {
    NewInv(s);
    var w := Run(NewWorld(s), steps);
    if w.status.externalName.Some? {
      assert w.status.externalName.value.agent in w.stores;
    }
  }

  lemma CreatingPass(s: Spec)
    ensures Inv(NewWorld(s))
    ensures var v := Run(NewWorld(s), [Begin(Reachable), Find(true), Create(0, 0, Applied), Commit(false)]);
            && v.specs == [s] && v.pc.Idle? && v.status.externalName == Some(Name(s.agentRef, 0)) && !Terminal(v.status)
            && v.stores == map[s.agentRef := CreateAt([], s, Name(s.agentRef, 0), 0, 1)]
  {
    NewInv(s);
    var w := NewWorld(s);
    var w1, w2 := w.(pc := Began(1)), w.(pc := Creating(1));
    assert w1 == Apply(w, Begin(Reachable)) && w2 == Apply(w1, Find(true));
    var w3 := Apply(w2, Create(0, 0, Applied));
    assert w.stores[s.agentRef := CreateAt([], s, Name(s.agentRef, 0), 0, 1)]
        == map[s.agentRef := CreateAt([], s, Name(s.agentRef, 0), 0, 1)];
    FourSteps(w, Begin(Reachable), Find(true), Create(0, 0, Applied), Commit(false), w1, w2, w3);
  }

  /** Three good passes of the agent's controller complete a new playbook with default policy. */
  lemma AgentCompletes(w: World, agent: string)
    requires Inv(w) && |Held(w.stores, agent)| == 1
    requires var p := Held(w.stores, agent)[0].playbook;
             p.status == Retry.INITIAL && p.spec.policy.value.backoffLimit.value > 0
    ensures var pass := AgentPass(agent, Rollout.GOOD_INPUT);
            var e, v := Held(w.stores, agent)[0], Run(w, [pass, pass, pass]);
            && v == w.(stores := v.stores) && |Held(v.stores, agent)| == 1
            && Held(v.stores, agent)[0].name == e.name
            && Held(v.stores, agent)[0].playbook.status == Retry.Status(Retry.Succeeded, 0, IsTrue, Unset)
  {
    var pass := AgentPass(agent, Rollout.GOOD_INPUT);
    var e := Held(w.stores, agent)[0];
    Rollout.NewPlaybookSucceeds(e.playbook);
    var w1 := Apply(w, pass);
    RunCons(w, pass, [pass, pass]);
    var w2 := Apply(w1, pass);
    RunCons(w1, pass, [pass]);
    RunCons(w2, pass, []);
    assert [pass] + [pass, pass] == [pass, pass, pass] && [pass] + [pass] == [pass, pass] && [pass] + [] == [pass];
  }

  /** The guarantee is not empty: every playbook can become Completed. */
  lemma CompletedIsReachable(s: Spec) returns (steps: seq<Step>)
    ensures Inv(NewWorld(s)) && Run(NewWorld(s), steps).status.phase.Completed?
  {
    var creating := [Begin(Reachable), Find(true), Create(0, 0, Applied), Commit(false)];
    var pass := AgentPass(s.agentRef, Rollout.GOOD_INPUT);
    CreatingPass(s);
    var w1 := Run(NewWorld(s), creating);
    AgentCompletes(w1, s.agentRef);
    var w2 := Run(w1, [pass, pass, pass]);
    CopyingPass(w2);
    steps := creating + [pass, pass, pass] + [Begin(Reachable), Find(true), Commit(false)];
    RunJoin(NewWorld(s), creating + [pass, pass, pass], [Begin(Reachable), Find(true), Commit(false)]);
    RunJoin(NewWorld(s), creating, [pass, pass, pass]);
  }

  /** A pass over an agent whose playbook is done. */
  lemma CopyingPass(w: World)
    requires Inv(w) && w.pc.Idle? && !Terminal(w.status) && |Held(w.stores, Last(w.specs).agentRef)| == 1
    requires var e := Held(w.stores, Last(w.specs).agentRef)[0];
             w.status.externalName == Some(e.name) && e.playbook.status.execution == IsTrue
    ensures Run(w, [Begin(Reachable), Find(true), Commit(false)]).status.phase.Completed?
  {
    var e := Held(w.stores, Last(w.specs).agentRef)[0];
    assert Last(w.specs).agentRef in w.stores && Faithful(w, e);
    var w1 := w.(pc := Began(|w.specs|));
    assert w1 == Apply(w, Begin(Reachable));
    var w2 := w.(pc := Committing(Copy(w.status, e)));
    assert w2 == Apply(w1, Find(true));
    RunCons(w, Begin(Reachable), [Find(true), Commit(false)]);
    RunCons(w1, Find(true), [Commit(false)]);
    RunCons(w2, Commit(false), []);
    assert [Begin(Reachable)] + [Find(true), Commit(false)] == [Begin(Reachable), Find(true), Commit(false)]
        && [Find(true)] + [Commit(false)] == [Find(true), Commit(false)] && [Commit(false)] + [] == [Commit(false)];
  }

  lemma {:induction false} RunJoin(w: World, a: seq<Step>, b: seq<Step>)
    requires Inv(w)
    ensures Run(w, a + b) == Run(Run(w, a), b)
    decreases |a|
  {
    if a == [] {
      assert a + b == b;
    } else {
      assert (a + b)[1..] == a[1..] + b;
      StepKeepsInv(w, a[0]);
      RunJoin(Apply(w, a[0]), a[1..], b);
    }
  }

  /** Completed, and a failure copied from the agent, never change again, whatever the user edits and the agents do. */
  lemma {:induction false} OutcomesAreFinal(w: World, steps: seq<Step>)
    requires Inv(w) && Terminal(w.status)
    ensures var v := Run(w, steps);
            && v.status.phase == w.status.phase
            && v.status.execution == w.status.execution && v.status.failed == w.status.failed
            && v.status.externalName == w.status.externalName && v.status.externalPhase == w.status.externalPhase
    decreases |steps|
  {
    if steps != [] {
      StepKeepsInv(w, steps[0]);
      OutcomesAreFinal(Apply(w, steps[0]), steps[1..]);
    }
  }
}

/** What the two tiers guarantee together, in every interleaving, and the runs that show the limits. */
module ReplicationTheorems {
  import opened Common
  import opened Defaulting
  import opened Replication
  import opened AgentRolloutTheorems
  import Rollout = AgentRollout

  // ---- One external deployment an agent ---------------------------------------------------------

  /** Whatever replies and patches are lost and however the spec is edited, an agent never holds more than one external
      deployment. */
  lemma AtMostOneExternal(s: Spec, steps: seq<Step>, agent: string)
    ensures |Held(Run(NewWorld(s), steps).stores, agent)| <= 1
  {
    NewBase(s);
    assert AtMostOneEach(Run(NewWorld(s), steps).stores);
  }

  lemma StepKeepsNames(w: World, s: Step, agent: string)
    requires Core(w)
    ensures var v := Apply(w, s);
            && (Held(w.stores, agent) != [] ==>
                  |Held(v.stores, agent)| == 1 && Held(v.stores, agent)[0].name == Held(w.stores, agent)[0].name)
            && (w.status.externalName.Some? ==>
                  v.status.externalName == w.status.externalName
                  && (Held(v.stores, agent) != [] ==> Held(w.stores, agent) != []))
  {
  }

  /** An external deployment keeps its name. ExternalName, once written, never changes, and from then on nothing is
      created any more at any agent. */
  lemma {:induction false} ExternalNameIsWriteOnce(w: World, steps: seq<Step>, agent: string)
    requires Core(w)
    ensures var v := Run(w, steps);
            && (Held(w.stores, agent) != [] ==>
                  |Held(v.stores, agent)| == 1 && Held(v.stores, agent)[0].name == Held(w.stores, agent)[0].name)
            && (w.status.externalName.Some? ==>
                  v.status.externalName == w.status.externalName
                  && (Held(v.stores, agent) != [] ==> Held(w.stores, agent) != []))
    decreases |steps|
  {
    if steps != [] {
      StepKeepsCore(w, steps[0]);
      StepKeepsNames(w, steps[0], agent);
      ExternalNameIsWriteOnce(Apply(w, steps[0]), steps[1..], agent);
    }
  }

  /** An edit of the agent reference, and a pass that creates. */
  function MovingSteps(w: World, agent: string): seq<Step>
    requires w.specs != []
  {
    [Edit(Last(w.specs).(agentRef := agent)), Begin(Reachable), Find(true), Create(0, Applied)]
  }

  /** An agent that holds none yet can come to hold one exactly while ExternalName is not on record: so a second agent
      gets one exactly when the spec moves to it before the first one's name was recorded. */
  lemma AnotherAgentGetsOneExactly(w: World, agent: string)
    requires Core(w) && w.pc.Idle? && Held(w.stores, agent) == []
    ensures (exists steps :: Held(Run(w, steps).stores, agent) != []) <==> w.status.externalName.None?
  {
    if w.status.externalName.Some? {
      forall steps ensures Held(Run(w, steps).stores, agent) == [] {
        ExternalNameIsWriteOnce(w, steps, agent);
      }
    } else {
      MovedSpecCreates(w, agent);
      assert Held(Run(w, MovingSteps(w, agent)).stores, agent) != [];
    }
  }

  lemma MovedSpecCreates(w: World, agent: string)
    requires Core(w) && w.pc.Idle? && Held(w.stores, agent) == [] && w.status.externalName.None?
    ensures Held(Run(w, MovingSteps(w, agent)).stores, agent) != []
  {
    var s := Last(w.specs).(agentRef := agent);
    var w1 := RunCons(w, Edit(s), [Begin(Reachable), Find(true), Create(0, Applied)]);
    EditValue(w, s);
    CreatingSteps(w1);
    assert [Edit(s)] + [Begin(Reachable), Find(true), Create(0, Applied)] == MovingSteps(w, agent);
  }

  /** A pass that finds no external deployment creates one. */
  lemma CreatingSteps(w: World)
    requires Core(w) && w.pc.Idle? && Held(w.stores, Last(w.specs).agentRef) == [] && w.status.externalName.None?
    ensures Held(Run(w, [Begin(Reachable), Find(true), Create(0, Applied)]).stores, Last(w.specs).agentRef) != []
  {
    BeginValue(w);
    var w1 := w.(pc := Began(|w.specs|));
    FindsNothing(w1);
    var w2 := w.(pc := Creating(|w.specs|));
    CreateValue(w2, 0);
    ThreeSteps(w, Begin(Reachable), Find(true), Create(0, Applied), w1, w2, Apply(w2, Create(0, Applied)));
  }

  lemma CommitValue(w: World)
    requires Reads(w) && w.pc.Committing?
    ensures Apply(w, Commit(false)) ==
            w.(status := w.pc.status.(observed := w.pc.generation), pc := Idle,
               confirmed := if w.pc.kind.FullPass? && w.pc.status.synced == IsTrue then w.pc.generation
                              else w.confirmed,
               misled := MisledBy(w),
               unseen := w.pc.kind.PausedPass? && (w.unseen || w.status.observed != w.pc.generation),
               unrecorded := w.unrecorded && !w.pc.pushed)
  {
  }

  lemma EditValue(w: World, s: Spec)
    requires Reads(w) && w.pc.Idle?
    ensures var v := Apply(w, Edit(s));
            v == w.(specs := v.specs) && v.specs != [] && Last(v.specs) == s
            && (v.specs == w.specs || v.specs == w.specs + [s])
  {
  }

  lemma BeginValue(w: World)
    requires Reads(w) && w.pc.Idle? && !FastPath(w.status, Last(w.specs))
    ensures Apply(w, Begin(Reachable)) == w.(pc := Began(|w.specs|))
  {
  }

  lemma FindsNothing(w: World)
    requires Reads(w) && w.pc.Began? && Held(w.stores, SpecRead(w).agentRef) == [] && w.status.externalName.None?
    ensures Apply(w, Find(true)) == w.(pc := Creating(w.pc.generation))
  {
  }

  lemma CreateValue(w: World, id: nat)
    requires Reads(w) && w.pc.Creating? && Held(w.stores, SpecRead(w).agentRef) == []
    ensures var s := SpecRead(w);
            Apply(w, Create(id, Applied))
            == w.(stores := w.stores[s.agentRef := CreateAt([], s, Name(s.agentRef, id))],
                  pc := Committing(w.pc.generation, Created(w.status, s, Name(s.agentRef, id), Applied), FullPass,
                                   false, false))
  {
  }

  /** With the list answered, the lookup fails exactly when ExternalName is on record and was made for another agent
      than the one the spec names now; so never as long as the agent reference stays. */
  lemma LookupFailsExactly(s: Spec, steps: seq<Step>)
    ensures var w := Run(NewWorld(s), steps);
            w.pc.Began? ==>
              var plan := PlanAfterList(w.status, SpecRead(w), Held(w.stores, SpecRead(w).agentRef), true);
              (plan.Stop? && plan.status.failure) <==>
              (w.status.externalName.Some? && w.status.externalName.value.agent != SpecRead(w).agentRef)
  {
    NewBase(s);
    var w := Run(NewWorld(s), steps);
    if w.pc.Began? {
      assert Held(w.stores, SpecRead(w).agentRef) != [] ==> SpecRead(w).agentRef in w.stores;
    }
  }

  // ---- The meaning of ready ---------------------------------------------------------------------

  lemma NewInv(s: Spec)
    ensures Inv(NewWorld(s))
  {
    NewBase(s);
  }

  /** Synced and Succeeded mean that the agent of the spec at the pass that set Synced has run, without an error, a
      playbook with that spec's files and entrypoint; provided that pass did not confirm a phase that the agent had not
      decided for its generation. Nothing is assumed of replies and patches on either side. */
  lemma SyncedAndSucceededMeansRun(s: Spec, steps: seq<Step>)
    ensures var w := Run(NewWorld(s), steps);
            Success(w.status) && !w.misled ==>
              0 < w.confirmed <= |w.specs| && RanAt(w.stores, w.specs[w.confirmed - 1])
  {
    NewInv(s);
    RunKeepsInv(NewWorld(s), steps);
    assert Confirmed(Run(NewWorld(s), steps));
  }

  /** A deployment that is ready for its current generation has been run with its current spec, early returns included:
      unless the last push is not recorded, the phase was misleading when it was confirmed, or a pass over a paused
      agent has stamped a generation not observed before. */
  lemma ReadyMeansCurrentSpecRan(s: Spec, steps: seq<Step>)
    ensures var w := Run(NewWorld(s), steps);
            !w.unrecorded && !w.misled && !w.unseen && Success(w.status) && w.status.observed == w.Generation() ==>
              RanAt(w.stores, Last(w.specs))
  {
    NewInv(s);
    RunKeepsInv(NewWorld(s), steps);
    var w := Run(NewWorld(s), steps);
    if !w.unrecorded && !w.misled && !w.unseen && Success(w.status) && w.status.observed == w.Generation() {
      ReadyHere(w);
    }
  }

  lemma ReadyHere(w: World)
    requires Reads(w) && Stamped(w)
    requires !w.unrecorded && !w.misled && !w.unseen && Success(w.status) && w.status.observed == w.Generation()
    ensures RanAt(w.stores, Last(w.specs))
  {
  }

  /** The same by what is stored: a success beside the checksum of the current spec means that this spec has been run,
      whatever passes stamped the generation. */
  lemma ChecksumMeansCurrentSpecRan(s: Spec, steps: seq<Step>)
    ensures var w := Run(NewWorld(s), steps);
            !w.unrecorded && !w.misled && !PushInFlight(w)
            && Success(w.status) && w.status.lastSpecChecksum == Some(Last(w.specs)) ==>
              RanAt(w.stores, Last(w.specs))
  {
    NewInv(s);
    RunKeepsInv(NewWorld(s), steps);
    var w := Run(NewWorld(s), steps);
    if !w.unrecorded && !w.misled && !PushInFlight(w)
       && Success(w.status) && w.status.lastSpecChecksum == Some(Last(w.specs)) {
      RecordedRan(w);
    }
  }

  /** With its push on record, the spec of the checksum is the one the agent reports on. */
  lemma RecordedRan(w: World)
    requires Inv(w) && !w.unrecorded && !w.misled && !PushInFlight(w)
    requires Success(w.status) && w.status.lastSpecChecksum.Some?
    ensures RanAt(w.stores, w.status.lastSpecChecksum.value)
  {
    var c := w.status.lastSpecChecksum.value;
    AgentIsTruthful(w, c.agentRef);
    assert c.agentRef in w.stores;
  }

  // ---- What a full pass has delivered -----------------------------------------------------------

  /** A full pass that is about to store its status leaves the agent with the spec that it read. */
  predicate Delivered(w: World)
    requires Reads(w)
  {
    w.pc.Committing? && w.pc.kind.FullPass? ==>
      var held := Held(w.stores, SpecRead(w).agentRef);
      |held| == 1 && Agrees(held[0].Current(), SpecRead(w))
  }

  lemma FindKeepsDelivered(w: World, listed: bool)
    requires Core(w) && Delivered(w) && Reads(Apply(w, Find(listed)))
    ensures Delivered(Apply(w, Find(listed)))
  {
    var v := Apply(w, Find(listed));
    if w.pc.Began? && v.pc.Committing? && v.pc.kind.FullPass? {
      var held := Held(w.stores, SpecRead(w).agentRef);
      assert |held| == 1;
      CarriesMeans(held[0].Current(), SpecRead(w));
    }
  }

  lemma WriteKeepsDelivered(w: World, s: Step)
    requires Core(w) && Delivered(w) && (s.Create? || s.Patch?) && Reads(Apply(w, s))
    ensures Delivered(Apply(w, s))
  {
    match s
    case Create(_, _) => if w.pc.Creating? { CreationMeans(SpecRead(w)); }
    case Patch(_) =>
      if w.pc.Patching? {
        var e := Held(w.stores, SpecRead(w).agentRef)[0];
        OverlayMeans(e.Current(), SpecRead(w));
        if !Carries(e.Current(), SpecRead(w)) { PatchedExternal(e, SpecRead(w)); }
      }
  }

  lemma AgentStepKeepsDelivered(w: World, agent: string, step: Rollout.Step)
    requires Core(w) && Delivered(w) && Reads(Apply(w, AgentStep(agent, step)))
    ensures Delivered(Apply(w, AgentStep(agent, step)))
  {
    if |Held(w.stores, agent)| == 1 && !step.Push? {
      OneOnAgent(w, agent, step);
      Rollout.QuietRunKeepsSpecs(w.stores[agent][0].agent, [step]);
      assert [step][1..] == [];
      var a := Rollout.Apply(w.stores[agent][0].agent, step);
      assert Rollout.Run(w.stores[agent][0].agent, [step]) == Rollout.Run(a, []);
    }
  }

  lemma StepKeepsDelivered(w: World, s: Step)
    requires Core(w) && Delivered(w) && Reads(Apply(w, s))
    ensures Delivered(Apply(w, s))
  {
    match s
    case Find(listed) => FindKeepsDelivered(w, listed);
    case AgentStep(agent, step) => AgentStepKeepsDelivered(w, agent, step);
    case Edit(spec) => EditKeepsHistory(w, spec);
    case Begin(_) =>
    case Commit(_) =>
    case Crash =>
    case _ => WriteKeepsDelivered(w, s);
  }

  lemma {:induction false} RunKeepsDelivered(w: World, steps: seq<Step>)
    requires Core(w) && Delivered(w)
    ensures Delivered(Run(w, steps))
    decreases |steps|
  {
    if steps != [] {
      StepKeepsCore(w, steps[0]);
      StepKeepsDelivered(w, steps[0]);
      RunKeepsDelivered(Apply(w, steps[0]), steps[1..]);
    }
  }

  /** In every run: when a full pass has created, pushed or confirmed without an error, the agent of the spec it read
      holds a deployment with that spec's labels, annotations, files, entrypoint, pause and, if it names one, history
      limit. */
  lemma FullPassDelivers(s: Spec, steps: seq<Step>)
    ensures var w := Run(NewWorld(s), steps);
            w.pc.Committing? && w.pc.kind.FullPass? ==>
              var held, r := Held(w.stores, SpecRead(w).agentRef), SpecRead(w);
              && |held| == 1
              && var d := held[0].Current();
                 && d.labels == r.labels && d.annotations == r.annotations && d.paused == r.paused
                 && d.template.files == r.files && d.template.entrypoint == r.entrypoint
                 && (r.revisionHistoryLimit.Some? ==> d.revisionHistoryLimit == r.revisionHistoryLimit)
  {
    NewBase(s);
    RunKeepsDelivered(NewWorld(s), steps);
    assert Delivered(Run(NewWorld(s), steps));
  }

  // ---- The early return -------------------------------------------------------------------------

  /** The status is true of the external deployment: its checksum is carried, and if it is synced, the external
      controller has observed its generation and the phase is the one on record. */
  predicate IsTrueOf(st: Status, e: External)
    requires e.agent.specs != []
  {
    && (st.lastSpecChecksum.Some? ==> Carries(e.Current(), st.lastSpecChecksum.value))
    && (st.synced == IsTrue ==>
          e.agent.observed == e.agent.Generation()
          && (Rollout.Settled(st.externalPhase) ==> e.agent.phase == st.externalPhase))
  }

  /** In every run: when the early return fires, the agent holds the external deployment, and the full pass would stop
      with the very same status exactly when that status agrees with it. */
  lemma EarlyReturnIsExact(s: Spec, steps: seq<Step>)
    ensures var w := Run(NewWorld(s), steps);
            FastPath(w.status, Last(w.specs)) ==>
              var held := Held(w.stores, Last(w.specs).agentRef);
              && |held| == 1
              && (PlanAfterList(w.status, Last(w.specs), held, true) == Stop(w.status) <==> IsTrueOf(w.status, held[0]))
  {
    NewBase(s);
    var w := Run(NewWorld(s), steps);
    if FastPath(w.status, Last(w.specs)) {
      EarlyReturnHere(w);
    }
  }

  lemma EarlyReturnHere(w: World)
    requires Core(w) && FastPath(w.status, Last(w.specs))
    ensures var held := Held(w.stores, Last(w.specs).agentRef);
            && |held| == 1
            && (PlanAfterList(w.status, Last(w.specs), held, true) == Stop(w.status) <==> IsTrueOf(w.status, held[0]))
  {
  }

  /** The early return leaves out nothing, the full pass would neither create nor patch and would commit the status it
      found: unless the last push is not recorded or the phase was misleading when it was confirmed. */
  lemma EarlyReturnRefinesFullPass(s: Spec, steps: seq<Step>)
    ensures var w := Run(NewWorld(s), steps);
            w.pc.Idle? && FastPath(w.status, Last(w.specs)) && !w.unrecorded && !w.misled ==>
              PlanAfterList(w.status, Last(w.specs), Held(w.stores, Last(w.specs).agentRef), true) == Stop(w.status)
  {
    NewInv(s);
    RunKeepsInv(NewWorld(s), steps);
    var w := Run(NewWorld(s), steps);
    if w.pc.Idle? && FastPath(w.status, Last(w.specs)) && !w.unrecorded && !w.misled {
      EarlyReturnIsExact(s, steps);
      RecordedAgrees(w);
    }
  }

  lemma RecordedAgrees(w: World)
    requires Base(w) && Recorded(w) && w.pc.Idle? && !w.unrecorded && !w.misled && w.status.externalName.Some?
    ensures IsTrueOf(w.status, Named(w.status, w.stores))
  {
    var agent := w.status.externalName.value.agent;
    assert agent in w.stores;
  }

  // ---- Concrete runs ----------------------------------------------------------------------------

  lemma {:induction false} RunJoin(w: World, a: seq<Step>, b: seq<Step>)
    requires Core(w)
    ensures Run(w, a + b) == Run(Run(w, a), b)
    decreases |a|
  {
    if a == [] {
      assert a + b == b;
    } else {
      assert (a + b)[1..] == a[1..] + b;
      StepKeepsCore(w, a[0]);
      RunJoin(Apply(w, a[0]), a[1..], b);
    }
  }

  lemma RunSnoc(w: World, a: seq<Step>, s: Step)
    requires Core(w)
    ensures Run(w, a + [s]) == Apply(Run(w, a), s)
  {
    RunJoin(w, a, [s]);
    StepKeepsCore(Run(w, a), s);
    assert [s][1..] == [];
    assert Run(Run(w, a), [s]) == Run(Apply(Run(w, a), s), [s][1..]);
  }

  lemma RunCons(w: World, s: Step, rest: seq<Step>) returns (v: World)
    requires Core(w)
    ensures Core(v) && v == Apply(w, s) && Run(w, [s] + rest) == Run(v, rest)
  {
    v := Apply(w, s);
    StepKeepsCore(w, s);
    assert ([s] + rest)[1..] == rest;
  }

  /** Three steps in a row, with the states between them. */
  lemma ThreeSteps(w: World, p: Step, q: Step, r: Step, w1: World, w2: World, w3: World)
    requires Core(w) && w1 == Apply(w, p)
    requires Reads(w1) && w2 == Apply(w1, q)
    requires Reads(w2) && w3 == Apply(w2, r)
    ensures Core(w3) && Run(w, [p, q, r]) == w3
  {
    var v1 := RunCons(w, p, [q, r]);
    var v2 := RunCons(v1, q, [r]);
    var v3 := RunCons(v2, r, []);
    assert [p] + [q, r] == [p, q, r] && [q] + [r] == [q, r] && [r] + [] == [r];
  }

  lemma TwoSteps(w: World, p: Step, q: Step)
    requires Core(w)
    ensures Core(Apply(w, p)) && Run(w, [p, q]) == Apply(Apply(w, p), q)
  {
    var v1 := RunCons(w, p, [q]);
    var v2 := RunCons(v1, q, []);
    assert [p] + [q] == [p, q] && [q] + [] == [q];
  }

  lemma FourSteps(w: World, p: Step, q: Step, r: Step, s: Step, w1: World, w2: World, w3: World, w4: World)
    requires Core(w) && w1 == Apply(w, p)
    requires Reads(w1) && w2 == Apply(w1, q)
    requires Reads(w2) && w3 == Apply(w2, r)
    requires Reads(w3) && w4 == Apply(w3, s)
    ensures Core(w4) && Run(w, [p, q, r, s]) == w4
  {
    assert [p] + [q, r, s] == [p, q, r, s];
    var v1 := RunCons(w, p, [q, r, s]);
    assert v1 == w1;
    ThreeSteps(w1, q, r, s, w2, w3, w4);
  }

  lemma RunOfThree(w: World, a: seq<Step>, b: seq<Step>, c: seq<Step>)
    requires Core(w)
    ensures Run(w, a + b + c) == Run(Run(Run(w, a), b), c)
  {
    RunJoin(w, a, b);
    RunJoin(w, a + b, c);
  }

  /** Steps of one agent alone. */
  function OnAgent(agent: string, steps: seq<Rollout.Step>): seq<Step> {
    if steps == [] then [] else [AgentStep(agent, steps[0])] + OnAgent(agent, steps[1..])
  }

  lemma OneOnAgent(w: World, agent: string, step: Rollout.Step)
    requires Core(w) && |Held(w.stores, agent)| == 1 && !step.Push?
    ensures var e := Held(w.stores, agent)[0];
            Apply(w, AgentStep(agent, step))
            == w.(stores := w.stores[agent := [e.(agent := Rollout.Apply(e.agent, step))]])
  {
  }

  lemma {:induction false} RunOnAgent(w: World, agent: string, steps: seq<Rollout.Step>)
    requires Core(w) && |Held(w.stores, agent)| == 1
    requires forall s | s in steps :: !s.Push?
    ensures var e := Held(w.stores, agent)[0];
            Run(w, OnAgent(agent, steps)) == w.(stores := w.stores[agent := [e.(agent := Rollout.Run(e.agent, steps))]])
    decreases |steps|
  {
    var e := Held(w.stores, agent)[0];
    if steps == [] {
      assert w.stores[agent] == [e] && w.stores[agent := [e]] == w.stores;
    } else {
      assert steps[0] in steps;
      OneOnAgent(w, agent, steps[0]);
      var v := RunCons(w, AgentStep(agent, steps[0]), OnAgent(agent, steps[1..]));
      RunOnAgent(v, agent, steps[1..]);
      var f := e.(agent := Rollout.Apply(e.agent, steps[0]));
      StoredTwice(w.stores, agent, [f], [f.(agent := Rollout.Run(f.agent, steps[1..]))]);
    }
  }

  lemma StoredTwice(stores: Stores, agent: string, x: seq<External>, y: seq<External>)
    ensures stores[agent := x][agent := y] == stores[agent := y]
  {
  }

  /** A management pass over an agent in reach: list, confirm, commit. */
  lemma ConfirmingPass(w: World)
    requires Core(w) && w.pc.Idle? && !FastPath(w.status, Last(w.specs))
    requires var held := Held(w.stores, Last(w.specs).agentRef);
             |held| == 1 && Carries(held[0].Current(), Last(w.specs))
             && (w.status.externalName.Some? ==> w.status.externalName == Some(held[0].name))
    ensures var e := Held(w.stores, Last(w.specs).agentRef)[0];
            Run(w, [Begin(Reachable), Find(true), Commit(false)])
            == w.(status := Confirm(w.status, e).(observed := w.Generation()), unseen := false,
                  misled := Misleading([e]),
                  confirmed := if e.agent.observed == e.agent.Generation() then w.Generation() else w.confirmed)
  {
    var e := Held(w.stores, Last(w.specs).agentRef)[0];
    var w1 := w.(pc := Began(w.Generation()));
    BeginValue(w);
    FindConfirms(w1);
    var w2 := w.(pc := Committing(w.Generation(), Confirm(w.status, e), FullPass, false, Misleading([e])));
    CommitValue(w2);
    ThreeSteps(w, Begin(Reachable), Find(true), Commit(false), w1, w2, Apply(w2, Commit(false)));
  }

  lemma FindConfirms(w: World)
    requires Reads(w) && w.pc.Began? && w.pc.generation == |w.specs|
    requires var held := Held(w.stores, Last(w.specs).agentRef);
             |held| == 1 && Carries(held[0].Current(), Last(w.specs))
             && (w.status.externalName.Some? ==> w.status.externalName == Some(held[0].name))
    ensures var e := Held(w.stores, Last(w.specs).agentRef)[0];
            Apply(w, Find(true)) ==
            w.(pc := Committing(w.Generation(), Confirm(w.status, e), FullPass, false, Misleading([e])))
  {
    var held := Held(w.stores, Last(w.specs).agentRef);
    assert held == [held[0]];
  }

  lemma CreatingPass(s: Spec)
    ensures Core(NewWorld(s))
    ensures Run(NewWorld(s), [Begin(Reachable), Find(true), Create(0, Applied), Commit(false)])
            == World([s], Status(Some(Name(s.agentRef, 0)), Rollout.NoPhase, IsFalse, Some(s), false, 1),
                     map[s.agentRef := [External(Name(s.agentRef, 0), Rollout.New(ToExternal(s)))]],
                     Idle, 0, false, false, false)
  {
    var w := NewWorld(s);
    NewBase(s);
    var w1, w2 := w.(pc := Began(1)), w.(pc := Creating(1));
    BeginValue(w);
    FindsNothing(w1);
    CreateValue(w2, 0);
    var w3 := Apply(w2, Create(0, Applied));
    var created := CreateAt([], s, Name(s.agentRef, 0));
    assert created == [External(Name(s.agentRef, 0), Rollout.New(ToExternal(s)))];
    assert w.stores[s.agentRef := created] == map[s.agentRef := created];
    CommitValue(w3);
    FourSteps(w, Begin(Reachable), Find(true), Create(0, Applied), Commit(false), w1, w2, w3, Apply(w3, Commit(false)));
  }

  /** A ready deployment with spec s: all is recorded, and nothing is in progress. */
  ghost predicate ReadyFor(s: Spec, w: World) {
    && w.specs != [] && Last(w.specs) == s && w.pc.Idle? && Success(w.status) && w.status.observed == w.Generation()
    && !w.unrecorded && !w.misled && !w.unseen
  }

  /** The guarantee is not empty: every spec that is not paused can become ready, with one playbook at its agent. */
  lemma ReadyIsReachable(s: Spec) returns (steps: seq<Step>)
    requires !s.paused
    ensures Core(NewWorld(s)) && ReadyFor(s, Run(NewWorld(s), steps))
    ensures var w := Run(NewWorld(s), steps);
            && FastPath(w.status, s) && w.stores.Keys == {s.agentRef} && |w.stores[s.agentRef]| == 1
            && var a := w.stores[s.agentRef][0].agent;
               |a.playbooks| == 1 && a.playbooks[0].spec.files == s.files
               && a.playbooks[0].spec.entrypoint == s.entrypoint
  {
    var creating := [Begin(Reachable), Find(true), Create(0, Applied), Commit(false)];
    var confirming := [Begin(Reachable), Find(true), Commit(false)];
    var d := ToExternal(s);
    var onAgent := AgentSucceeds(d);
    var w := NewWorld(s);
    CreatingPass(s);
    var w1 := Run(w, creating);
    RunOnAgent(w1, s.agentRef, onAgent);
    var w2 := Run(w1, OnAgent(s.agentRef, onAgent));
    var a := Rollout.Run(Rollout.New(d), onAgent);
    assert Held(w2.stores, s.agentRef) == [External(Name(s.agentRef, 0), a)];
    assert Carries(Rollout.StoreDeployment(d), s);
    ConfirmingPass(w2);
    RunOfThree(w, creating, OnAgent(s.agentRef, onAgent), confirming);
    steps := creating + OnAgent(s.agentRef, onAgent) + confirming;
  }

  // ---- A pass over a paused agent ---------------------------------------------------------------

  /** An edit, and a pass over an agent that is paused by annotation. */
  function PausedEdit(s: Spec): seq<Step> { [Edit(s), Begin(AgentPaused), Commit(false)] }

  /** Such a pass stamps the generation of the edited spec beside the old verdict: the deployment looks ready. */
  lemma PausedAgentLooksReady(w: World, other: Spec)
    requires Core(w) && w.pc.Idle?
    ensures var v := Run(w, PausedEdit(other));
            && v.status == w.status.(observed := v.Generation()) && Last(v.specs) == other && v.stores == w.stores
            && v.unrecorded == w.unrecorded
  {
    var w1 := Apply(w, Edit(other));
    EditValue(w, other);
    var kind := if FastPath(w.status, other) then FastPass else PausedPass;
    var w2 := w1.(pc := Committing(|w1.specs|, w.status, kind, false, false));
    CommitValue(w2);
    ThreeSteps(w, Edit(other), Begin(AgentPaused), Commit(false), w1, w2, Apply(w2, Commit(false)));
  }

  predicate SameRun(s: Spec, t: Spec) { s.agentRef == t.agentRef && s.files == t.files && s.entrypoint == t.entrypoint }

  ghost predicate RanAfterPause(before: Spec, other: Spec, steps: seq<Step>)
    requires Core(NewWorld(before))
  {
    RanAt(Run(Run(NewWorld(before), steps), PausedEdit(other)).stores, other)
  }

  /** What the stamp then claims is true, in every run that had made the old spec ready, exactly when the edit changes
      neither agent nor files nor entrypoint. */
  lemma PausedStampIsTrueExactly(s: Spec, other: Spec)
    requires !s.paused
    ensures Core(NewWorld(s))
    ensures (forall steps | ReadyFor(s, Run(NewWorld(s), steps)) :: RanAfterPause(s, other, steps))
            <==> SameRun(s, other)
  {
    NewInv(s);
    forall steps | ReadyFor(s, Run(NewWorld(s), steps)) && SameRun(s, other) ensures RanAfterPause(s, other, steps) {
      RunKeepsInv(NewWorld(s), steps);
      var w := Run(NewWorld(s), steps);
      ReadyHere(w);
      PausedAgentLooksReady(w, other);
    }
    var steps := ReadyIsReachable(s);
    PausedAgentLooksReady(Run(NewWorld(s), steps), other);
    assert RanAfterPause(s, other, steps) ==> SameRun(s, other);
  }

  // ---- Pushes that are not recorded -------------------------------------------------------------

  /** What a push carries over differs; a history limit that one of them leaves open does not count. */
  predicate Differs(s: Spec, t: Spec) {
    || s.labels != t.labels || s.annotations != t.annotations || s.files != t.files || s.entrypoint != t.entrypoint
    || s.paused != t.paused
    || (s.revisionHistoryLimit.Some? && t.revisionHistoryLimit.Some?
        && s.revisionHistoryLimit != t.revisionHistoryLimit)
  }

  /** A deployment at rest whose agent holds its spec, and another spec for the same agent. */
  predicate Resting(w: World, other: Spec)
    requires Reads(w)
  {
    && w.pc.Idle? && FastPath(w.status, Last(w.specs))
    && Differs(other, Last(w.specs)) && other.agentRef == Last(w.specs).agentRef
    && |Held(w.stores, other.agentRef)| == 1 && w.status.externalName == Some(Held(w.stores, other.agentRef)[0].name)
    && Carries(Held(w.stores, other.agentRef)[0].Current(), Last(w.specs))
  }

  /** After the calls of a pass that pushes the other spec. */
  function PushedWorld(w: World, other: Spec, r: WriteResult): World
    requires Reads(w) && Resting(w, other)
  {
    var held := Held(w.stores, other.agentRef);
    w.(specs := w.specs + [other],
       stores := if r.Rejected? then w.stores else w.stores[other.agentRef := PatchAt(held, other)],
       pc := Committing(|w.specs| + 1, Pushed(See(w.status, held[0]), other, r),
                        if r.Applied? then FullPass else FailedPass, r.Applied?, false),
       unrecorded := w.unrecorded || r.ReplyLost?)
  }

  /** The agent then holds the other spec, not the one before. */
  lemma PushedWorldHolds(w: World, other: Spec, r: WriteResult)
    requires Reads(w) && Resting(w, other) && !r.Rejected?
    ensures var held := Held(PushedWorld(w, other, r).stores, other.agentRef);
            var e := Held(w.stores, other.agentRef)[0];
            && |held| == 1 && held[0].name == e.name && held[0].agent.pc == e.agent.pc
            && held[0].agent.specs != [] && held[0].Current() == Overlay(e.Current(), other)
            && Carries(held[0].Current(), other) && !Carries(held[0].Current(), Last(w.specs))
  {
    var e := Held(w.stores, other.agentRef)[0];
    assert Held(w.stores, other.agentRef) == [e];
    PatchedExternal(e, other);
  }

  /** The early return fires although the agent does not hold the spec. */
  predicate Misses(w: World)
    requires Reads(w)
  {
    var held := Held(w.stores, Last(w.specs).agentRef);
    w.pc.Idle? && FastPath(w.status, Last(w.specs)) && |held| == 1 && !Carries(held[0].Current(), Last(w.specs))
  }

  /** An edit, a pass that pushes it, and a revert of the spec. */
  function PushAndRevert(w: World, other: Spec, r: WriteResult, lost: bool): seq<Step>
    requires w.specs != []
  {
    [Edit(other), Begin(Reachable), Find(true), Patch(r)] + [Commit(lost), Edit(Last(w.specs))]
  }

  /** From every deployment at rest: the early return then misses the revert exactly when the status patch was lost
      and the push had taken effect, its reply lost or not. */
  lemma RevertIsMissedExactly(w: World, other: Spec, r: WriteResult, lost: bool)
    requires Core(w) && Resting(w, other)
    ensures Misses(Run(w, PushAndRevert(w, other, r, lost))) <==> lost && !r.Rejected?
  {
    var back := Last(w.specs);
    PushesOther(w, other, r);
    var u := PushedWorld(w, other, r);
    RunJoin(w, [Edit(other), Begin(Reachable), Find(true), Patch(r)], [Commit(lost), Edit(back)]);
    TwoSteps(u, Commit(lost), Edit(back));
    if lost {
      if !r.Rejected? { PushedWorldHolds(w, other, r); }
      LostCommitValue(u, back);
    } else {
      StoredPushIsSeen(u, back);
    }
  }

  /** A stored pass that wrote, or failed to, leaves the condition false. */
  lemma StoredPushIsSeen(w: World, back: Spec)
    requires Reads(w) && w.pc.Committing? && w.pc.status.synced == IsFalse && Reads(Apply(w, Commit(false)))
    ensures !Misses(Apply(Apply(w, Commit(false)), Edit(back)))
  {
    CommitValue(w);
  }

  /** So a push whose status patch is lost makes the early return miss a revert. */
  lemma LostPatchMisleadsEarlyReturn(w: World, other: Spec)
    requires Core(w) && Resting(w, other)
    ensures Misses(Run(w, PushAndRevert(w, other, Applied, true)))
  {
    RevertIsMissedExactly(w, other, Applied, true);
  }

  lemma LostCommitValue(w: World, s: Spec)
    requires Reads(w) && w.pc.Committing? && s != Last(w.specs) && Reads(Apply(w, Commit(true)))
    ensures Apply(Apply(w, Commit(true)), Edit(s))
         == w.(pc := Idle, unrecorded := w.unrecorded || w.pc.pushed, specs := w.specs + [s])
  {
  }

  /** A pass that finds another spec and patches it in. */
  lemma PushesOther(w: World, other: Spec, r: WriteResult)
    requires Core(w) && Resting(w, other)
    ensures Run(w, [Edit(other), Begin(Reachable), Find(true), Patch(r)]) == PushedWorld(w, other, r)
  {
    var w1 := w.(specs := w.specs + [other]);
    EditValue(w, other);
    BeginValue(w1);
    var w2 := w1.(pc := Began(|w1.specs|));
    NotCarried(Held(w.stores, other.agentRef)[0], Last(w.specs), other);
    FindsOther(w2, other);
    var w3 := w1.(pc := Patching(|w1.specs|, See(w.status, Held(w.stores, other.agentRef)[0])));
    PatchValue(w3, r);
    FourSteps(w, Edit(other), Begin(Reachable), Find(true), Patch(r), w1, w2, w3, PushedWorld(w, other, r));
  }

  lemma NotCarried(e: External, s: Spec, other: Spec)
    requires e.agent.specs != [] && Carries(e.Current(), s) && Differs(other, s)
    ensures !Carries(e.Current(), other)
  {
  }

  lemma PatchValue(w: World, r: WriteResult)
    requires Reads(w) && w.pc.Patching? && |Held(w.stores, SpecRead(w).agentRef)| == 1
    ensures var s := SpecRead(w);
            Apply(w, Patch(r))
            == w.(stores := if r.Rejected? then w.stores
                            else w.stores[s.agentRef := PatchAt(Held(w.stores, s.agentRef), s)],
                  pc := Committing(w.pc.generation, Pushed(w.pc.status, s, r),
                                   if r.Applied? then FullPass else FailedPass,
                                   r.Applied?, false),
                  unrecorded := w.unrecorded || r.ReplyLost?)
  {
  }

  lemma FindsOther(w: World, other: Spec)
    requires Reads(w) && w.pc.Began? && SpecRead(w) == other
    requires var held := Held(w.stores, other.agentRef);
             |held| == 1 && w.status.externalName == Some(held[0].name)
             && !Carries(held[0].Current(), other)
    ensures Apply(w, Find(true)) ==
            w.(pc := Patching(w.pc.generation, See(w.status, Held(w.stores, other.agentRef)[0])))
  {
  }

  lemma PatchedExternal(e: External, other: Spec)
    requires e.agent.specs != [] && !Carries(e.Current(), other)
    ensures var f := PatchAt([e], other)[0];
            && f.agent == e.agent.(specs := e.agent.specs + [Overlay(e.Current(), other)])
            && f.Current() == Overlay(e.Current(), other) && f.name == e.name
  {
  }

  /** The status after a pass that pushed the other spec and was stored. */
  function StoredPush(w: World, other: Spec, r: WriteResult): World
    requires Reads(w) && Resting(w, other)
  {
    var u := PushedWorld(w, other, r);
    u.(status := u.pc.status.(observed := u.Generation()), pc := Idle, misled := false, unseen := false,
       unrecorded := u.unrecorded && !r.Applied?)
  }

  lemma StoredPushPass(w: World, other: Spec, r: WriteResult)
    requires Core(w) && Resting(w, other)
    ensures Run(w, [Edit(other), Begin(Reachable), Find(true), Patch(r), Commit(false)]) == StoredPush(w, other, r)
    ensures Core(StoredPush(w, other, r))
  {
    var pushing := [Edit(other), Begin(Reachable), Find(true), Patch(r)];
    PushesOther(w, other, r);
    RunSnoc(w, pushing, Commit(false));
    CommitValue(PushedWorld(w, other, r));
    assert pushing + [Commit(false)] == [Edit(other), Begin(Reachable), Find(true), Patch(r), Commit(false)];
  }

  /** An edit and a stored pass that pushes it; then the agent acts, the next pass looks, and the spec is reverted. */
  function LaterRevert(w: World, other: Spec, r: WriteResult, acts: seq<Rollout.Step>): seq<Step>
    requires w.specs != []
  {
    [Edit(other), Begin(Reachable), Find(true), Patch(r), Commit(false)] + OnAgent(other.agentRef, acts)
    + [Begin(Reachable), Find(true), Commit(false)] + [Edit(Last(w.specs))]
  }

  /** The agent shows a verdict on its present generation. */
  predicate ShowsVerdict(a: Rollout.Agent) { a.observed == a.Generation() && Rollout.Settled(a.phase) }

  /** From every deployment at rest, whatever the agent does in between: with every status stored, the early return then
      misses the revert exactly when the reply of the push was lost and the agent shows a verdict on what was pushed. */
  lemma LaterRevertIsMissedExactly(w: World, other: Spec, r: WriteResult, acts: seq<Rollout.Step>)
    requires Core(w) && Resting(w, other) && forall s | s in acts :: !s.Push?
    ensures Held(StoredPush(w, other, r).stores, other.agentRef) != []
    ensures Misses(Run(w, LaterRevert(w, other, r, acts))) <==>
            r.ReplyLost?
            && ShowsVerdict(Rollout.Run(Held(StoredPush(w, other, r).stores, other.agentRef)[0].agent, acts))
  {
    var agent := other.agentRef;
    var w1 := StoredPush(w, other, r);
    var looking := [Begin(Reachable), Find(true), Commit(false)];
    StoredPushPass(w, other, r);
    RunOnAgent(w1, agent, acts);
    Rollout.QuietRunKeepsSpecs(Held(w1.stores, agent)[0].agent, acts);
    var w2 := Run(w1, OnAgent(agent, acts));
    RunOfThree(w, [Edit(other), Begin(Reachable), Find(true), Patch(r), Commit(false)], OnAgent(agent, acts), looking);
    RunSnoc(w, [Edit(other), Begin(Reachable), Find(true), Patch(r), Commit(false)] + OnAgent(agent, acts) + looking,
            Edit(Last(w.specs)));
    if r.Rejected? {
      RejectedIsPushedAgain(w2);
    } else {
      PushedWorldHolds(w, other, r);
      LookAndRevert(w2, Last(w.specs));
    }
  }

  /** A pass confirms what the agent holds, and the spec goes back to one that it does not hold. */
  lemma LookAndRevert(w: World, back: Spec)
    requires Core(w) && w.pc.Idle? && w.status.synced != IsTrue
    requires back != Last(w.specs) && back.agentRef == Last(w.specs).agentRef
    requires var held := Held(w.stores, back.agentRef);
             && |held| == 1 && w.status.externalName == Some(held[0].name)
             && Carries(held[0].Current(), Last(w.specs)) && !Carries(held[0].Current(), back)
    ensures Misses(Apply(Run(w, [Begin(Reachable), Find(true), Commit(false)]), Edit(back))) <==>
            w.status.lastSpecChecksum == Some(back) && ShowsVerdict(Held(w.stores, back.agentRef)[0].agent)
  {
    ConfirmingPass(w);
    EditValue(Run(w, [Begin(Reachable), Find(true), Commit(false)]), back);
  }

  lemma RejectedIsPushedAgain(w: World)
    requires Core(w) && w.pc.Idle? && w.status.synced == IsFalse
    requires var held := Held(w.stores, Last(w.specs).agentRef);
             |held| == 1 && w.status.externalName == Some(held[0].name)
             && !Carries(held[0].Current(), Last(w.specs))
    ensures Run(w, [Begin(Reachable), Find(true), Commit(false)])
            == w.(pc := Patching(w.Generation(), See(w.status, Held(w.stores, Last(w.specs).agentRef)[0])))
  {
    var w1 := w.(pc := Began(w.Generation()));
    BeginValue(w);
    FindsOther(w1, Last(w.specs));
    var w2 := w.(pc := Patching(w.Generation(), See(w.status, Held(w.stores, Last(w.specs).agentRef)[0])));
    ThreeSteps(w, Begin(Reachable), Find(true), Commit(false), w1, w2, w2);
  }

  /** So a lost reply can make it miss a revert: a paused deployment is observed at once. */
  lemma LostReplyMisleadsEarlyReturn(w: World, other: Spec)
    requires Core(w) && Resting(w, other)
    requires other.paused && Held(w.stores, other.agentRef)[0].agent.pc == Rollout.Idle
    ensures Misses(Run(w, LaterRevert(w, other, ReplyLost,
                                      [Rollout.Begin, Rollout.Act(0, Rollout.NoFault), Rollout.Patch(false)])))
  {
    LaterRevertIsMissedExactly(w, other, ReplyLost,
                               [Rollout.Begin, Rollout.Act(0, Rollout.NoFault), Rollout.Patch(false)]);
    PushedWorldHolds(w, other, ReplyLost);
    PausedDeploymentPass(Held(StoredPush(w, other, ReplyLost).stores, other.agentRef)[0].agent);
  }

  lemma PausedDeploymentPass(a: Rollout.Agent)
    requires a.specs != [] && a.pc.Idle? && Last(a.specs).paused
    ensures Rollout.Run(a, [Rollout.Begin, Rollout.Act(0, Rollout.NoFault), Rollout.Patch(false)])
            == a.(observed := a.Generation(), decided := a.Generation(), phase := Rollout.Paused)
  {
    Rollout.RunOfThree(a, Rollout.Begin, Rollout.Act(0, Rollout.NoFault), Rollout.Patch(false));
    assert Rollout.Apply(a, Rollout.Begin) == a.(pc := Rollout.Read(a.Generation()));
    PausedAct(a.(pc := Rollout.Read(a.Generation())));
  }

  lemma PausedAct(a: Rollout.Agent)
    requires a.specs != [] && a.pc == Rollout.Read(a.Generation()) && Last(a.specs).paused
    ensures Rollout.Apply(Rollout.Apply(a, Rollout.Act(0, Rollout.NoFault)), Rollout.Patch(false))
         == a.(observed := a.Generation(), decided := a.Generation(), phase := Rollout.Paused, pc := Rollout.Idle)
  {
    assert Rollout.Apply(a, Rollout.Act(0, Rollout.NoFault))
        == a.(pc := Rollout.Report(a.Generation(), Rollout.Paused, false));
  }
}

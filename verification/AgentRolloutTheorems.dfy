/** What every run of the agent's deployment controller guarantees, and the runs that show its limits. */
module AgentRolloutTheorems {
  import opened Common
  import opened Defaulting
  import opened AgentRollout
  import Retry = PlaybookRetry

  /** One active rollout: in every run, with any failing calls and lost patches, all playbooks but the newest have
      ended and neighbours in creation order have different specs. */
  lemma OneActiveRollout(d: DeploymentSpec, steps: seq<Step>)
    ensures var a := Run(New(d), steps);
            && (forall i | 0 <= i < |a.playbooks| - 1 :: a.playbooks[i].Ended())
            && (forall i | 0 <= i < |a.playbooks| - 1 :: a.playbooks[i].spec != a.playbooks[i + 1].spec)
            && (forall i | 0 <= i < |a.playbooks| - 1 :: a.playbooks[i].created < a.playbooks[i + 1].created)
  {
    NewInv(d);
    RunKeepsInv(New(d), steps);
    var a := Run(New(d), steps);
    forall i | 0 <= i < |a.playbooks| - 1
      ensures a.playbooks[i].Ended() && a.playbooks[i].created < a.playbooks[i + 1].created
    {
      assert Follows(a.playbooks[i], a.playbooks[i + 1]);
    }
  }

  /** How often the template changed along a history of specs. */
  function Changes(specs: seq<StoredDeployment>): nat {
    if |specs| < 2 then 0
    else
      var front := specs[..|specs| - 1];
      Changes(front) + (if Last(front).template != Last(specs).template then 1 else 0)
  }

  lemma {:induction false} ChangesBetween(specs: seq<StoredDeployment>, g: nat, h: nat)
    requires 0 < g <= h <= |specs|
    ensures Changes(specs[..g]) <= Changes(specs[..h])
    ensures specs[g - 1].template != specs[h - 1].template ==> Changes(specs[..g]) < Changes(specs[..h])
    decreases h
  {
    if g < h {
      ChangesBetween(specs, g, h - 1);
      assert specs[..h][..h - 1] == specs[..h - 1];
    }
  }

  lemma {:induction false} EachPlaybookNeedsAChange(a: Agent, i: nat)
    requires RolloutInv(a) && i < |a.playbooks|
    ensures 0 < a.playbooks[i].generation <= a.Generation()
    ensures i <= Changes(a.specs[..a.playbooks[i].generation])
  {
    assert SoundPlaybook(a, a.playbooks[i]);
    if i > 0 {
      EachPlaybookNeedsAChange(a, i - 1);
      var p, q := a.playbooks[i - 1], a.playbooks[i];
      assert SoundPlaybook(a, p) && Follows(p, q);
      assert p.spec != q.spec;
      ChangesBetween(a.specs, p.generation, q.generation);
    }
  }

  /** The number of playbooks ever created is at most one plus the number of template changes. */
  lemma CreationsAreBounded(d: DeploymentSpec, steps: seq<Step>)
    ensures var a := Run(New(d), steps); |a.playbooks| <= 1 + Changes(a.specs)
  {
    NewInv(d);
    RunKeepsInv(New(d), steps);
    var a := Run(New(d), steps);
    if a.playbooks != [] {
      var n := |a.playbooks|;
      EachPlaybookNeedsAChange(a, n - 1);
      ChangesBetween(a.specs, a.playbooks[n - 1].generation, |a.specs|);
      assert a.specs[..|a.specs|] == a.specs;
    }
  }

  // ---- Convergence ------------------------------------------------------------------------------

  predicate NoPush(steps: seq<Step>) {
    forall s | s in steps :: !s.Push?
  }

  /** A playbook made after another one was made from a later generation. */
  lemma GenerationsGrow(a: Agent, i: nat)
    requires RolloutInv(a)
    ensures i + 1 < |a.playbooks| ==> a.playbooks[i].generation < a.playbooks[i + 1].generation
  {
    if i + 1 < |a.playbooks| {
      assert SoundPlaybook(a, a.playbooks[i]) && SoundPlaybook(a, a.playbooks[i + 1]);
      assert Follows(a.playbooks[i], a.playbooks[i + 1]);
    }
  }

  /** No pass holds an older spec. */
  predicate UpToDate(a: Agent) {
    a.pc.Idle? || a.pc.generation == a.Generation()
  }

  predicate Extends(a: Agent, b: Agent) {
    && b.specs == a.specs
    && |a.playbooks| <= |b.playbooks|
    && (forall i | |a.playbooks| <= i < |b.playbooks| :: b.playbooks[i].generation == a.Generation())
  }

  lemma StepExtends(a: Agent, s: Step)
    requires RolloutInv(a) && !s.Push? && UpToDate(a)
    ensures Extends(a, Apply(a, s)) && UpToDate(Apply(a, s))
  {
  }

  lemma {:induction false} RunExtends(a: Agent, steps: seq<Step>)
    requires Inv(a) && NoPush(steps) && UpToDate(a)
    ensures Extends(a, Run(a, steps))
    decreases |steps|
  {
    if steps != [] {
      var m := Apply(a, steps[0]);
      assert steps[0] in steps;
      StepExtends(a, steps[0]);
      StepKeepsInv(a, steps[0]);
      RunExtends(m, steps[1..]);
      RunKeepsInv(m, steps[1..]);
      GenerationsAreKept(m, steps[1..]);
    }
  }

  /** The generation a playbook was made from is never rewritten. */
  lemma {:induction false} GenerationsAreKept(a: Agent, steps: seq<Step>)
    ensures |a.playbooks| <= |Run(a, steps).playbooks|
    ensures forall i | 0 <= i < |a.playbooks| :: Run(a, steps).playbooks[i].generation == a.playbooks[i].generation
    decreases |steps|
  {
    if steps != [] { GenerationsAreKept(Apply(a, steps[0]), steps[1..]); }
  }

  /** Once the spec stands still and no pass holds an older one, at most one more playbook is created, whatever
      fails and however many passes follow. */
  lemma AtMostOneMore(a: Agent, steps: seq<Step>)
    requires Inv(a) && NoPush(steps) && UpToDate(a)
    ensures |Run(a, steps).playbooks| <= |a.playbooks| + 1
  {
    RunExtends(a, steps);
    RunKeepsInv(a, steps);
    GenerationsGrow(Run(a, steps), |a.playbooks|);
  }

  /** An undisturbed pass of the controller. */
  function FullPass(a: Agent, now: int): Agent {
    Run(a, [Begin, Act(now, NoFault), Patch(false)])
  }

  lemma FullPassIs(a: Agent, now: int)
    requires Inv(a) && a.pc.Idle?
    ensures FullPass(a, now) == Apply(ActOn(a.(pc := Read(a.Generation())), now, NoFault), Patch(false))
  {
    RunOfThree(a, Begin, Act(now, NoFault), Patch(false));
    assert Apply(a, Begin) == a.(pc := Read(a.Generation()));
  }

  /** A pass creates the missing playbook, and it is stored with exactly the current template's spec. */
  lemma PassStartsTheRollout(a: Agent, now: int)
    requires Inv(a) && a.pc.Idle? && Decide(Last(a.specs), a.playbooks) == Create
    requires a.playbooks != [] ==> Last(a.playbooks).created < now
    ensures var b := FullPass(a, now);
            && |b.playbooks| == |a.playbooks| + 1 && b.playbooks[..|a.playbooks|] == a.playbooks
            && Last(b.playbooks).spec == Last(a.specs).template
            && Last(b.playbooks).status == Retry.INITIAL
            && b.phase == Progressing && b.observed == a.Generation() && b.pc == Idle
  {
    FullPassIs(a, now);
    FixedPointsAreComplete(Last(a.specs).template);
  }

  lemma PassReports(a: Agent, now: int)
    requires Inv(a) && a.pc.Idle? && Decide(Last(a.specs), a.playbooks).Tell?
    ensures FullPass(a, now)
            == a.(observed := a.Generation(), decided := a.Generation(),
                  phase := Decide(Last(a.specs), a.playbooks).phase)
  {
    FullPassIs(a, now);
  }

  /** Once the newest playbook has ended and carries the current template, a pass reports its outcome and
      creates nothing, and further passes change nothing at all. */
  lemma RolloutIsStable(a: Agent, now: int, later: int)
    requires Inv(a) && a.pc.Idle? && !Last(a.specs).paused
    requires a.playbooks != [] && Last(a.playbooks).Ended() && Last(a.playbooks).spec == Last(a.specs).template
    ensures var b := FullPass(a, now);
            && b.playbooks == a.playbooks && b.specs == a.specs && b.observed == a.Generation()
            && b.phase == (if Last(a.playbooks).status.execution == IsTrue then Succeeded else Failed)
            && FullPass(b, later) == b
  {
    RunKeepsInv(a, [Begin, Act(now, NoFault), Patch(false)]);
    PassReports(a, now);
    PassReports(FullPass(a, now), later);
  }

  /** The newest playbook has come to an end. */
  predicate NewestEnded(a: Agent) {
    a.playbooks != [] && (Last(a.playbooks).status.execution == IsTrue || Last(a.playbooks).status.failure == IsTrue)
  }

  /** The pass has to create a playbook: there is none, or the newest has ended with another template. */
  predicate NeedsPlaybook(a: Agent)
    requires a.specs != []
  {
    !Last(a.specs).paused
    && (a.playbooks == [] || (NewestEnded(a) && Last(a.playbooks).spec != Last(a.specs).template))
  }

  /** Playbooks and phase after a pass over a: each phase exactly when it is due; a pass whose List or needed Create
      fails leaves the phase. */
  predicate Told(a: Agent, fault: Fault, playbooks: seq<Playbook>, phase: DeploymentPhase)
    requires a.specs != []
  {
    var d := Last(a.specs);
    var current := a.playbooks != [] && Last(a.playbooks).spec == d.template;
    && (|playbooks| == |a.playbooks| + 1 <==> NeedsPlaybook(a) && (fault.NoFault? || fault.CreateReplyLost?))
    && (|playbooks| != |a.playbooks| + 1 ==> playbooks == a.playbooks)
    && if !d.paused && (fault.ListFails? || (NeedsPlaybook(a) && !fault.NoFault?)) then phase == a.phase
       else
         && (phase == Paused <==> d.paused)
         && (phase == Progressing <==> !d.paused && (NeedsPlaybook(a) || !NewestEnded(a)))
         && (phase == Succeeded <==>
               !d.paused && NewestEnded(a) && current && Last(a.playbooks).status.execution == IsTrue)
         && (phase == Failed <==>
               !d.paused && NewestEnded(a) && current && Last(a.playbooks).status.execution != IsTrue)
         && phase != NoPhase
  }

  lemma ActTells(a: Agent, now: int, fault: Fault)
    requires a.specs != [] && a.pc == Read(|a.specs|) && (a.playbooks != [] ==> Last(a.playbooks).created < now)
    ensures var b := ActOn(a, now, fault);
            && b.pc.Report? && b.pc.generation == |a.specs| && b == a.(pc := b.pc, playbooks := b.playbooks)
            && Told(a, fault, b.playbooks, b.pc.phase)
  {
  }

  /** What a stored pass tells its user, for every state and every failing call. */
  lemma PassTells(a: Agent, now: int, fault: Fault)
    requires Inv(a) && a.pc.Idle? && (a.playbooks != [] ==> Last(a.playbooks).created < now)
    ensures var b := Run(a, [Begin, Act(now, fault), Patch(false)]);
            b.specs == a.specs && b.observed == |a.specs| && Told(a, fault, b.playbooks, b.phase)
  {
    RunOfThree(a, Begin, Act(now, fault), Patch(false));
    var read := a.(pc := Read(|a.specs|));
    assert Apply(a, Begin) == read;
    ActTells(read, now, fault);
    var b := ActOn(read, now, fault);
    assert Apply(b, Patch(false)) == b.(pc := Idle, observed := b.pc.generation, phase := b.pc.phase,
                                        decided := if b.pc.faulty then b.decided else b.pc.generation);
  }

  /** A pass that a spec change overtakes stamps the generation it read, not the new one. */
  lemma OvertakenPassStampsWhatItRead(a: Agent, now: int, fault: Fault, spec: DeploymentSpec)
    requires Inv(a) && a.pc.Idle? && (a.playbooks != [] ==> Last(a.playbooks).created < now)
    requires StoreDeployment(spec) != Last(a.specs)
    ensures var b := Run(a, [Begin, Act(now, fault), Push(spec)] + [Patch(false)]);
            b.observed == |a.specs| && |b.specs| == |a.specs| + 1
  {
    RunJoin(a, [Begin, Act(now, fault), Push(spec)], [Patch(false)]);
    RunOfThree(a, Begin, Act(now, fault), Push(spec));
    var read := a.(pc := Read(|a.specs|));
    assert Apply(a, Begin) == read;
    ActTells(read, now, fault);
    var c := Run(a, [Begin, Act(now, fault), Push(spec)]);
    assert [Patch(false)][1..] == [] && Run(Apply(c, Patch(false)), []) == Apply(c, Patch(false));
  }

  /** Without defaulting of the template, the comparison would never settle: the playbook made from a template
      equals it exactly when the template is complete, and otherwise every ended playbook is followed by one more. */
  lemma DefaultingMakesItSettle(d: DeploymentSpec, p: Playbook)
    requires !d.paused && p.Ended() && p.spec == DefaultPlaybook(d.template)
    ensures Judge(d, Some(p)).Tell? <==> Complete(d.template)
  {
    FixedPointsAreComplete(d.template);
  }

  /** In every run, with any failing calls and lost patches: a succeeded phase means that a playbook with the template
      of the generation it was decided for has run without an error. So it speaks of the current template when it was
      decided for the current generation, and in any case when the template has not changed since. */
  lemma SucceededMeansRun(d: DeploymentSpec, steps: seq<Step>)
    ensures var a := Run(New(d), steps);
            a.phase == Succeeded ==>
              && 0 < a.decided <= a.observed <= a.Generation()
              && HasRun(a, a.specs[a.decided - 1].template)
              && (a.specs[a.decided - 1].template == Last(a.specs).template ==> HasRun(a, Last(a.specs).template))
  {
    NewInv(d);
    RunKeepsInv(New(d), steps);
  }

  /** A stored pass without a failing call decides the phase anew, so the stamp and the phase belong together again. */
  lemma CleanPassIsDecided(a: Agent, now: int)
    requires Inv(a) && a.pc.Idle? && (a.playbooks != [] ==> Last(a.playbooks).created < now)
    ensures var b := FullPass(a, now); b.decided == b.observed == b.Generation()
  {
    FullPassIs(a, now);
  }

  // ---- The stamp of a faulty pass ---------------------------------------------------------------

  lemma RunOfFour(a: Agent, p: Step, q: Step, r: Step, t: Step)
    ensures Run(a, [p, q, r, t]) == Apply(Apply(Apply(Apply(a, p), q), r), t)
  {
    assert [p, q, r, t][1..] == [q, r, t] && [q, r, t][1..] == [r, t] && [r, t][1..] == [t] && [t][1..] == [];
    var b, c, d := Apply(a, p), Apply(Apply(a, p), q), Apply(Apply(Apply(a, p), q), r);
    var e := Apply(d, t);
    assert Run(e, []) == e && Run(d, [t]) == e && Run(c, [r, t]) == e && Run(b, [q, r, t]) == e;
  }

  /** An edit, and a pass whose list call fails. */
  function FaultyEdit(e: DeploymentSpec): seq<Step> {
    [Push(e), Begin, Act(0, ListFails), Patch(false)]
  }

  /** The generation is stamped before the error of List returns: the old phase then carries the new generation. */
  lemma FaultyPassStampsOldPhase(a: Agent, e: DeploymentSpec)
    requires Inv(a) && a.pc.Idle? && !e.paused
    ensures var b := Run(a, FaultyEdit(e));
            && b.phase == a.phase && b.observed == b.Generation() && b.decided == a.decided
            && b.playbooks == a.playbooks && b.specs != [] && Last(b.specs) == StoreDeployment(e)
  {
    RunOfFour(a, Push(e), Begin, Act(0, ListFails), Patch(false));
    var s2 := Apply(Apply(a, Push(e)), Begin);
    assert Last(s2.specs) == StoreDeployment(e);
    assert Apply(s2, Act(0, ListFails)) == s2.(pc := Report(s2.Generation(), a.phase, true));
  }

  /** A deployment that is not paused and allows an attempt. */
  predicate CanSucceed(d: DeploymentSpec) {
    !d.paused && StoreDeployment(d).template.policy.value.backoffLimit.value > 0
  }

  /** A playbook that was just made is prepared, run and completed by three passes. */
  lemma PlaybookSucceeds(a: Agent)
    requires |a.playbooks| == 1 && a.playbooks[0].status == Retry.INITIAL
    requires a.playbooks[0].spec.policy.value.backoffLimit.value > 0
    ensures var pass := RunPlaybook(0, GOOD_INPUT);
            Run(a, [pass, pass, pass])
            == a.(playbooks :=
                    [a.playbooks[0].(status := Retry.Status(Retry.Succeeded, 0, IsTrue, Unset),
                                     successes := a.playbooks[0].successes + 1)])
  {
    var pass := RunPlaybook(0, GOOD_INPUT);
    NewPlaybookSucceeds(a.playbooks[0]);
    RunOfThree(a, pass, pass, pass);
    var b := Apply(a, pass);
    var c := Apply(b, pass);
    assert b.playbooks == [b.playbooks[0]] && c.playbooks == [c.playbooks[0]];
  }

  /** An agent on its own brings such a deployment to Succeeded, with one playbook. */
  lemma AgentSucceeds(d: DeploymentSpec) returns (steps: seq<Step>)
    requires CanSucceed(d)
    ensures forall s | s in steps :: !s.Push?
    ensures var a := Run(New(d), steps);
            && a.specs == [StoreDeployment(d)] && a.observed == a.decided == 1 && a.phase == Succeeded && a.pc == Idle
            && |a.playbooks| == 1 && a.playbooks[0].spec == StoreDeployment(d).template
  {
    var pass := RunPlaybook(0, GOOD_INPUT);
    var report := [Begin, Act(0, NoFault), Patch(false)];
    var a, b := New(d), FullPass(New(d), 0);
    NewInv(d);
    PassStartsTheRollout(a, 0);
    RunKeepsInv(a, report);
    QuietRunKeepsSpecs(a, report);
    PlaybookSucceeds(b);
    var c := Run(b, [pass, pass, pass]);
    RunKeepsInv(b, [pass, pass, pass]);
    PassReports(c, 0);
    RunJoin(a, report, [pass, pass, pass]);
    RunJoin(a, report + [pass, pass, pass], report);
    steps := report + [pass, pass, pass] + report;
  }

  /** The run brings deployment d, its only spec or its latest, to Succeeded. */
  predicate Succeeds(d: DeploymentSpec, steps: seq<Step>) {
    var a := Run(New(d), steps);
    a.specs != [] && Last(a.specs) == StoreDeployment(d) && a.phase == Succeeded
    && a.decided == a.Generation() && a.pc.Idle?
  }

  /** What the stamp of the faulty pass then claims. */
  ghost predicate StampIsTrue(d: DeploymentSpec, e: DeploymentSpec, steps: seq<Step>) {
    HasRun(Run(Run(New(d), steps), FaultyEdit(e)), StoreDeployment(e).template)
  }

  lemma StampStaysTrue(d: DeploymentSpec, e: DeploymentSpec, steps: seq<Step>)
    requires !e.paused && Succeeds(d, steps) && StoreDeployment(d).template == StoreDeployment(e).template
    ensures StampIsTrue(d, e, steps)
  {
    NewInv(d);
    RunKeepsInv(New(d), steps);
    var a := Run(New(d), steps);
    FaultyPassStampsOldPhase(a, e);
    HasRunIsKept(a, Run(a, FaultyEdit(e)), StoreDeployment(e).template);
  }

  /** After every run that brings d to Succeeded, an edit to e and a faulty pass stamp e's generation beside
      Succeeded. That is true of e in all of them exactly when the edit leaves the stored template as it was. */
  lemma FaultyStampIsTrueExactly(d: DeploymentSpec, e: DeploymentSpec)
    requires CanSucceed(d) && !e.paused
    ensures (forall steps | Succeeds(d, steps) :: StampIsTrue(d, e, steps)) <==>
            StoreDeployment(d).template == StoreDeployment(e).template
  {
    if StoreDeployment(d).template == StoreDeployment(e).template {
      forall steps | Succeeds(d, steps) ensures StampIsTrue(d, e, steps) {
        StampStaysTrue(d, e, steps);
      }
    }
    var steps := AgentSucceeds(d);
    assert Succeeds(d, steps);
    NewInv(d);
    RunKeepsInv(New(d), steps);
    FaultyPassStampsOldPhase(Run(New(d), steps), e);
    assert StampIsTrue(d, e, steps) ==> StoreDeployment(d).template == StoreDeployment(e).template;
  }
}

/**
 The agent's PlaybookDeployment controller (agent/pkg/controllers/playbookdeployment.go): it turns the
 successive specs of one deployment into a sequence of playbooks.

 `Agent` holds one deployment and its playbooks; `Apply` makes one API call or one playbook pass. Calls of a
 reconcile may be interleaved with spec changes and playbook passes in any way.
 */
module AgentRollout {
  import opened Common
  import opened Defaulting
  import opened Sorting
  import Retry = PlaybookRetry

  datatype DeploymentPhase = NoPhase | Progressing | Paused | Succeeded | Failed

  type StoredSpec = s: PlaybookSpec | Complete(s)
    witness PlaybookSpec(Some(Policy(Some(0), Some(0))), map[], "")

  type StoredDeployment = d: DeploymentSpec | Complete(d.template) && d.revisionHistoryLimit.Some?
    witness DeploymentSpec(map[], map[], PlaybookSpec(Some(Policy(Some(0), Some(0))), map[], ""), Some(0), false)

  /** A stored playbook. `generation` and `successes` are history: the deployment generation it was made from,
      and the number of its runs that returned no error. */
  datatype Playbook = Playbook(
    owner: int, created: int, spec: StoredSpec, status: Retry.Status, generation: nat, successes: nat)
  {
    function Meta(): Retry.Meta { Retry.Meta(created, spec.policy.value.backoffLimit.value) }

    predicate Ended() { Retry.Terminal(status) }

    predicate Executed() { status.execution == IsTrue && successes > 0 }

    function Pass(i: Retry.Input): Playbook {
      var good := Retry.Runs(Meta(), status, i) && !Retry.RunReturnsError(i.run);
      this.(status := Retry.Commit(Meta(), status, i), successes := successes + (if good then 1 else 0))
    }
  }

  function StorePlaybook(owner: int, created: int, template: PlaybookSpec, generation: nat): Playbook {
    FixedPointsAreComplete(DefaultPlaybook(template));
    Playbook(owner, created, DefaultPlaybook(template), Retry.INITIAL, generation, 0)
  }

  function StoreDeployment(d: DeploymentSpec): StoredDeployment {
    DefaultDeployment(d)
  }

  const GOOD_INPUT := Retry.Input(0, true, Retry.Completed, false)

  /** A playbook that was just made is prepared, run and completed by three passes, and by no fewer. */
  lemma NewPlaybookSucceeds(p: Playbook)
    requires p.status == Retry.INITIAL && p.spec.policy.value.backoffLimit.value > 0
    ensures var p1 := p.Pass(GOOD_INPUT); var p2 := p1.Pass(GOOD_INPUT);
            && p1.status == Retry.INITIAL.(phase := Retry.Pending)
            && p2.status == Retry.INITIAL.(phase := Retry.Running)
            && p2.Pass(GOOD_INPUT)
               == p.(status := Retry.Status(Retry.Succeeded, 0, IsTrue, Unset), successes := p.successes + 1)
  {
  }

  // ---- One pass: what it decides from a spec and the newest playbook ----------------------------

  datatype Verdict = Tell(phase: DeploymentPhase) | Create

  function PhaseOf(p: Playbook): DeploymentPhase {
    if p.status.execution == IsTrue then Succeeded
    else if p.status.failure == IsTrue then Failed
    else Progressing
  }

  function Judge(d: DeploymentSpec, newest: Option<Playbook>): Verdict {
    if d.paused then Tell(Paused)
    else match newest
      case None => Create
      case Some(p) =>
        if !p.Ended() then Tell(Progressing)
        else if p.spec == d.template then Tell(PhaseOf(p))
        else Create
  }

  function Newest(playbooks: seq<Playbook>): Option<Playbook> {
    if playbooks == [] then None else Some(Last(playbooks))
  }

  function Decide(d: DeploymentSpec, playbooks: seq<Playbook>): Verdict {
    Judge(d, Newest(playbooks))
  }

  // ---- The machine ------------------------------------------------------------------------------

  /** The reconcile in progress: the generation it read, then the phase it is about to patch. `faulty`: its List or
      Create call returned an error, so the phase is the one it read. */
  datatype Pc = Idle | Read(generation: nat) | Report(generation: nat, phase: DeploymentPhase, faulty: bool)

  /** `specs` is the history of stored specs, so the generation is its length. `decided` is history as well: the
      generation for which the phase on record was decided. */
  datatype Agent = Agent(
    specs: seq<StoredDeployment>, observed: nat, decided: nat, phase: DeploymentPhase, playbooks: seq<Playbook>, pc: Pc)
  {
    function Generation(): nat { |specs| }
  }

  datatype Fault = NoFault | ListFails | CreateFails | CreateReplyLost

  datatype Step =
    | Push(spec: DeploymentSpec)
    | Begin
    | Act(now: int, fault: Fault)
    | Patch(lost: bool)
    | RunPlaybook(index: nat, input: Retry.Input)

  function New(d: DeploymentSpec): Agent {
    Agent([StoreDeployment(d)], 0, 0, NoPhase, [], Idle)
  }

  function Apply(a: Agent, s: Step): Agent {
    match s
    case Push(spec) =>
      if a.specs != [] && StoreDeployment(spec) == Last(a.specs) then a
      else a.(specs := a.specs + [StoreDeployment(spec)])
    case Begin => if a.pc.Idle? then a.(pc := Read(a.Generation())) else a
    case Act(now, fault) => if a.pc.Read? && 0 < a.pc.generation <= |a.specs| then ActOn(a, now, fault) else a
    case Patch(lost) =>
      if !a.pc.Report? then a
      else if lost then a.(pc := Idle)
      else a.(pc := Idle, observed := a.pc.generation, phase := a.pc.phase,
              decided := if a.pc.faulty then a.decided else a.pc.generation)
    case RunPlaybook(k, input) =>
      if k < |a.playbooks| then a.(playbooks := a.playbooks[k := a.playbooks[k].Pass(input)]) else a
  }

  /** List and, if so decided, Create. An error leaves the phase read with the deployment; the observed
      generation is stamped all the same. Creation needs a clock past the newest playbook's timestamp. */
  function ActOn(a: Agent, now: int, fault: Fault): Agent
    requires a.pc.Read? && 0 < a.pc.generation <= |a.specs|
  {
    var g := a.pc.generation;
    var d := a.specs[g - 1];
    if d.paused then a.(pc := Report(g, Paused, false))
    else if fault.ListFails? then a.(pc := Report(g, a.phase, true))
    else match Decide(d, a.playbooks)
      case Tell(p) => a.(pc := Report(g, p, false))
      case Create =>
        var more := a.playbooks + [StorePlaybook(0, now, d.template, g)];
        if a.playbooks != [] && now <= Last(a.playbooks).created then a
        else match fault
          case CreateFails => a.(pc := Report(g, a.phase, true))
          case CreateReplyLost => a.(pc := Report(g, a.phase, true), playbooks := more)
          case _ => a.(pc := Report(g, Progressing, false), playbooks := more)
  }

  function Run(a: Agent, steps: seq<Step>): Agent
    decreases |steps|
  {
    if steps == [] then a else Run(Apply(a, steps[0]), steps[1..])
  }

  lemma {:induction false} RunJoin(a: Agent, s: seq<Step>, t: seq<Step>)
    ensures Run(a, s + t) == Run(Run(a, s), t)
    decreases |s|
  {
    if s == [] {
      assert s + t == t;
    } else {
      assert (s + t)[1..] == s[1..] + t;
      RunJoin(Apply(a, s[0]), s[1..], t);
    }
  }

  lemma {:induction false} QuietRunKeepsSpecs(a: Agent, steps: seq<Step>)
    requires forall s | s in steps :: !s.Push?
    ensures Run(a, steps).specs == a.specs
    decreases |steps|
  {
    if steps != [] {
      assert steps[0] in steps;
      QuietRunKeepsSpecs(Apply(a, steps[0]), steps[1..]);
    }
  }

  lemma RunOfThree(a: Agent, p: Step, q: Step, r: Step)
    ensures Run(a, [p, q, r]) == Apply(Apply(Apply(a, p), q), r)
  {
    assert [p, q, r][1..] == [q, r] && [q, r][1..] == [r] && [r][1..] == [];
    var b, c := Apply(a, p), Apply(Apply(a, p), q);
    var d := Apply(c, r);
    assert Run(d, []) == d && Run(c, [r]) == d && Run(b, [q, r]) == d;
  }

  // ---- Invariants -------------------------------------------------------------------------------

  /** Kept by every step, whatever fails. */
  ghost predicate RolloutInv(a: Agent) {
    && a.specs != []
    && a.decided <= a.observed <= a.Generation()
    && (!a.pc.Idle? ==> 0 < a.pc.generation && a.observed <= a.pc.generation <= a.Generation())
    && (forall i {:trigger a.playbooks[i]} | 0 <= i < |a.playbooks| :: SoundPlaybook(a, a.playbooks[i]))
    && (forall i, j {:trigger a.playbooks[i], a.playbooks[j]} | 0 <= i < j < |a.playbooks| ::
          Follows(a.playbooks[i], a.playbooks[j]))
    && (forall i {:trigger a.playbooks[i]} | 0 <= i < |a.playbooks| - 1 ::
          a.playbooks[i].spec != a.playbooks[i + 1].spec)
  }

  predicate SoundPlaybook(a: Agent, p: Playbook) {
    && 0 < p.generation <= a.Generation()
    && (!a.pc.Idle? ==> p.generation <= a.pc.generation)
    && p.spec == a.specs[p.generation - 1].template
    && (p.status.execution == IsTrue ==> p.successes > 0)
  }

  /** q was created after p, which had ended by then. */
  predicate Follows(p: Playbook, q: Playbook) {
    p.Ended() && p.created < q.created && p.generation <= q.generation
  }

  predicate Settled(p: DeploymentPhase) { p.Paused? || p.Succeeded? || p.Failed? }

  /** Some playbook with this template ran without an error. */
  ghost predicate HasRun(a: Agent, template: PlaybookSpec) {
    exists i :: 0 <= i < |a.playbooks| && a.playbooks[i].spec == template && a.playbooks[i].Executed()
  }

  /** A reported phase is backed by the playbooks. */
  ghost predicate Backed(a: Agent, g: nat, p: DeploymentPhase)
    requires g <= a.Generation()
  {
    && (p.Succeeded? ==> g > 0 && HasRun(a, a.specs[g - 1].template))
    && (Settled(p) && g == a.Generation() && g > 0 ==> Decide(a.specs[g - 1], a.playbooks) == Tell(p))
  }

  /** What the phases on record and in flight say, each about the generation it was decided for. */
  ghost predicate PhaseInv(a: Agent)
    requires RolloutInv(a)
  {
    && Backed(a, a.decided, a.phase)
    && (a.pc.Report? && a.pc.faulty ==> a.pc.phase == a.phase)
    && (a.pc.Report? && !a.pc.faulty ==> Backed(a, a.pc.generation, a.pc.phase))
    && (a.pc.Report? && a.decided == a.Generation() && Settled(a.phase) ==> a.pc.phase == a.phase)
    && (a.decided == 0 ==> a.phase == NoPhase)
  }

  ghost predicate Inv(a: Agent) {
    RolloutInv(a) && PhaseInv(a)
  }

  lemma PresentSuccessHasRun(a: Agent)
    requires Inv(a) && a.decided == a.Generation() && a.phase == Succeeded
    ensures a.specs != [] && HasRun(a, Last(a.specs).template)
  {
  }

  lemma NewInv(d: DeploymentSpec)
    ensures Inv(New(d))
  {
  }

  lemma PassKeepsEnd(p: Playbook, i: Retry.Input)
    ensures p.Ended() ==> p.Pass(i).status == p.status
    ensures p.Executed() ==> p.Pass(i).Executed()
  {
  }

  lemma HasRunIsKept(a: Agent, b: Agent, template: PlaybookSpec)
    requires |a.playbooks| <= |b.playbooks|
    requires forall i {:trigger b.playbooks[i]} | 0 <= i < |a.playbooks| ::
               b.playbooks[i].spec == a.playbooks[i].spec
               && (a.playbooks[i].Executed() ==> b.playbooks[i].Executed())
    ensures HasRun(a, template) ==> HasRun(b, template)
  {
    if HasRun(a, template) {
      var i :| 0 <= i < |a.playbooks| && a.playbooks[i].spec == template && a.playbooks[i].Executed();
      assert b.playbooks[i].spec == template && b.playbooks[i].Executed();
    }
  }

  /** What ends a reconcile's decision with no new playbook. */
  lemma ReportKeepsRollout(a: Agent, p: DeploymentPhase, faulty: bool)
    requires RolloutInv(a) && a.pc.Read?
    ensures RolloutInv(a.(pc := Report(a.pc.generation, p, faulty)))
  {
    var b := a.(pc := Report(a.pc.generation, p, faulty));
    forall i | 0 <= i < |b.playbooks| ensures SoundPlaybook(b, b.playbooks[i]) {
      assert SoundPlaybook(a, a.playbooks[i]);
    }
  }

  lemma CreateKeepsRollout(a: Agent, now: int)
    requires RolloutInv(a) && a.pc.Read? && Decide(a.specs[a.pc.generation - 1], a.playbooks) == Create
    requires a.playbooks == [] || Last(a.playbooks).created < now
    ensures RolloutInv(a.(playbooks :=
              a.playbooks + [StorePlaybook(0, now, a.specs[a.pc.generation - 1].template, a.pc.generation)]))
  {
    var n, g := |a.playbooks|, a.pc.generation;
    var p := StorePlaybook(0, now, a.specs[g - 1].template, g);
    var b := a.(playbooks := a.playbooks + [p]);
    FixedPointsAreComplete(a.specs[g - 1].template);
    forall i | 0 <= i < n ensures Follows(a.playbooks[i], p) {
      assert SoundPlaybook(a, a.playbooks[i]);
      if i < n - 1 { assert Follows(a.playbooks[i], a.playbooks[n - 1]); }
    }
    forall i, j | 0 <= i < j < |b.playbooks| ensures Follows(b.playbooks[i], b.playbooks[j]) {
      assert b.playbooks[i] == a.playbooks[i];
      if j < n { assert b.playbooks[j] == a.playbooks[j]; }
    }
    forall i | 0 <= i < |b.playbooks| ensures SoundPlaybook(b, b.playbooks[i]) {
      if i < n { assert SoundPlaybook(a, a.playbooks[i]); }
    }
  }

  lemma ActKeepsRollout(a: Agent, now: int, fault: Fault)
    requires RolloutInv(a) && a.pc.Read?
    ensures RolloutInv(ActOn(a, now, fault))
  {
    var b := ActOn(a, now, fault);
    if b.playbooks != a.playbooks {
      CreateKeepsRollout(a, now);
      ReportKeepsRollout(a.(playbooks := b.playbooks), b.pc.phase, b.pc.faulty);
    } else if b.pc.Report? {
      ReportKeepsRollout(a, b.pc.phase, b.pc.faulty);
    }
  }

  lemma PassKeepsPlaybook(a: Agent, k: nat, input: Retry.Input, i: nat)
    requires k < |a.playbooks| && i < |a.playbooks| && a.playbooks[i].generation <= a.Generation()
    ensures var b := Apply(a, RunPlaybook(k, input)); var p, q := a.playbooks[i], b.playbooks[i];
            && (q.spec, q.created, q.generation) == (p.spec, p.created, p.generation) && (p.Ended() ==> q.Ended())
            && (SoundPlaybook(a, p) ==> SoundPlaybook(b, q))
  {
    PassKeepsEnd(a.playbooks[k], input);
  }

  lemma PassKeepsRollout(a: Agent, k: nat, input: Retry.Input)
    requires RolloutInv(a) && k < |a.playbooks|
    ensures RolloutInv(Apply(a, RunPlaybook(k, input)))
  {
    var b := Apply(a, RunPlaybook(k, input));
    forall i | 0 <= i < |b.playbooks|
      ensures var p, q := a.playbooks[i], b.playbooks[i];
              && (q.spec, q.created, q.generation) == (p.spec, p.created, p.generation) && (p.Ended() ==> q.Ended())
              && SoundPlaybook(b, q)
    {
      assert SoundPlaybook(a, a.playbooks[i]);
      PassKeepsPlaybook(a, k, input, i);
    }
    forall i, j | 0 <= i < j < |b.playbooks| ensures Follows(b.playbooks[i], b.playbooks[j]) {
      assert Follows(a.playbooks[i], a.playbooks[j]);
    }
    forall i | 0 <= i < |b.playbooks| - 1 ensures b.playbooks[i].spec != b.playbooks[i + 1].spec {
      assert a.playbooks[i].spec != a.playbooks[i + 1].spec;
    }
  }

  lemma OtherStepKeepsRollout(a: Agent, s: Step)
    requires RolloutInv(a) && (s.Push? || s.Begin? || s.Patch?)
    ensures RolloutInv(Apply(a, s))
  {
    var b := Apply(a, s);
    assert b.playbooks == a.playbooks;
    forall i | 0 <= i < |b.playbooks| ensures SoundPlaybook(b, b.playbooks[i]) {
      assert SoundPlaybook(a, a.playbooks[i]);
    }
  }

  lemma StepKeepsRollout(a: Agent, s: Step)
    requires RolloutInv(a)
    ensures RolloutInv(Apply(a, s))
  {
    match s
    case Act(now, fault) => if a.pc.Read? { ActKeepsRollout(a, now, fault); }
    case RunPlaybook(k, input) => if k < |a.playbooks| { PassKeepsRollout(a, k, input); }
    case _ => OtherStepKeepsRollout(a, s);
  }

  /** A settled verdict outlives every playbook pass. */
  lemma SettledVerdictIsKept(d: DeploymentSpec, playbooks: seq<Playbook>, k: nat, i: Retry.Input, p: DeploymentPhase)
    requires k < |playbooks| && Settled(p) && Decide(d, playbooks) == Tell(p)
    ensures Decide(d, playbooks[k := playbooks[k].Pass(i)]) == Tell(p)
  {
    PassKeepsEnd(playbooks[k], i);
  }

  lemma BackedIsKept(a: Agent, s: Step, g: nat, p: DeploymentPhase)
    requires RolloutInv(a) && g <= a.Generation() && Backed(a, g, p)
    requires s.RunPlaybook? || s.Push?
    ensures g <= Apply(a, s).Generation() && Backed(Apply(a, s), g, p)
  {
    var b := Apply(a, s);
    if s.RunPlaybook? && s.index < |a.playbooks| {
      PassKeepsEnd(a.playbooks[s.index], s.input);
      if Settled(p) && g == a.Generation() {
        SettledVerdictIsKept(a.specs[g - 1], a.playbooks, s.index, s.input, p);
      }
    }
    if g > 0 {
      HasRunIsKept(a, b, a.specs[g - 1].template);
    }
  }

  /** A verdict of success points at the newest playbook. */
  lemma SuccessHasRun(a: Agent, g: nat)
    requires RolloutInv(a) && 0 < g <= a.Generation()
    requires Decide(a.specs[g - 1], a.playbooks) == Tell(Succeeded)
    ensures HasRun(a, a.specs[g - 1].template)
  {
    var last := |a.playbooks| - 1;
    assert SoundPlaybook(a, a.playbooks[last]);
    assert a.playbooks[last].spec == a.specs[g - 1].template && a.playbooks[last].Executed();
  }

  lemma ToldIsBacked(a: Agent, p: DeploymentPhase)
    requires RolloutInv(a) && PhaseInv(a) && a.pc.Read? && Decide(a.specs[a.pc.generation - 1], a.playbooks) == Tell(p)
    ensures var b := a.(pc := Report(a.pc.generation, p, false)); RolloutInv(b) && PhaseInv(b)
  {
    var g := a.pc.generation;
    var b := a.(pc := Report(g, p, false));
    ReportKeepsRollout(a, p, false);
    HasRunIsKept(a, b, a.specs[g - 1].template);
    if a.decided > 0 { HasRunIsKept(a, b, a.specs[a.decided - 1].template); }
    if p == Succeeded { SuccessHasRun(a, g); }
  }

  lemma TellIsBacked(a: Agent, now: int, fault: Fault, p: DeploymentPhase)
    requires RolloutInv(a) && PhaseInv(a) && a.pc.Read? && Decide(a.specs[a.pc.generation - 1], a.playbooks) == Tell(p)
    requires !fault.ListFails? || a.specs[a.pc.generation - 1].paused
    ensures RolloutInv(ActOn(a, now, fault)) && PhaseInv(ActOn(a, now, fault))
  {
    assert ActOn(a, now, fault) == a.(pc := Report(a.pc.generation, p, false));
    ToldIsBacked(a, p);
  }

  /** A new playbook, or an error on the way to one. */
  lemma OtherActIsBacked(a: Agent, now: int, fault: Fault)
    requires RolloutInv(a) && PhaseInv(a) && a.pc.Read? && !a.specs[a.pc.generation - 1].paused
    requires fault.ListFails? || Decide(a.specs[a.pc.generation - 1], a.playbooks) == Create
    ensures RolloutInv(ActOn(a, now, fault)) && PhaseInv(ActOn(a, now, fault))
  {
    ActKeepsRollout(a, now, fault);
    assert !fault.ListFails? ==> !(a.decided == a.Generation() && Settled(a.phase));
    if a.decided > 0 { HasRunIsKept(a, ActOn(a, now, fault), a.specs[a.decided - 1].template); }
  }

  lemma ActIsBacked(a: Agent, now: int, fault: Fault)
    requires RolloutInv(a) && PhaseInv(a) && a.pc.Read?
    ensures RolloutInv(ActOn(a, now, fault)) && PhaseInv(ActOn(a, now, fault))
  {
    var d := a.specs[a.pc.generation - 1];
    match Decide(d, a.playbooks)
    case Tell(p) =>
      if fault.ListFails? && !d.paused { OtherActIsBacked(a, now, fault); } else { TellIsBacked(a, now, fault, p); }
    case Create => OtherActIsBacked(a, now, fault);
  }

  /** The status patch: a phase that was decided for its generation, or a faulty pass's, which was not. */
  lemma PatchIsBacked(a: Agent, lost: bool)
    requires RolloutInv(a) && PhaseInv(a) && a.pc.Report?
    ensures RolloutInv(Apply(a, Patch(lost))) && PhaseInv(Apply(a, Patch(lost)))
  {
    var b := Apply(a, Patch(lost));
    OtherStepKeepsRollout(a, Patch(lost));
    if b.decided > 0 { HasRunIsKept(a, b, a.specs[b.decided - 1].template); }
  }

  lemma BeginIsBacked(a: Agent)
    requires RolloutInv(a) && PhaseInv(a)
    ensures RolloutInv(Apply(a, Begin)) && PhaseInv(Apply(a, Begin))
  {
    OtherStepKeepsRollout(a, Begin);
    var b := Apply(a, Begin);
    assert b == a.(pc := b.pc);
    forall t ensures HasRun(b, t) == HasRun(a, t) {}
    assert Backed(b, b.decided, b.phase) == Backed(a, a.decided, a.phase);
  }

  lemma StepKeepsInv(a: Agent, s: Step)
    requires Inv(a)
    ensures Inv(Apply(a, s))
  {
    match s
    case Push(_) => PhaseIsKept(a, s);
    case RunPlaybook(_, _) => PhaseIsKept(a, s);
    case Act(now, fault) => if a.pc.Read? { ActIsBacked(a, now, fault); }
    case Patch(lost) => if a.pc.Report? { PatchIsBacked(a, lost); }
    case Begin => BeginIsBacked(a);
  }

  lemma PhaseIsKept(a: Agent, s: Step)
    requires RolloutInv(a) && PhaseInv(a) && (s.RunPlaybook? || s.Push?)
    ensures RolloutInv(Apply(a, s)) && PhaseInv(Apply(a, s))
  {
    StepKeepsRollout(a, s);
    BackedIsKept(a, s, a.decided, a.phase);
    if a.pc.Report? && !a.pc.faulty { BackedIsKept(a, s, a.pc.generation, a.pc.phase); }
  }

  lemma {:induction false} RunKeepsInv(a: Agent, steps: seq<Step>)
    requires Inv(a)
    ensures Inv(Run(a, steps))
    decreases |steps|
  {
    if steps != [] {
      StepKeepsInv(a, steps[0]);
      RunKeepsInv(Apply(a, steps[0]), steps[1..]);
    }
  }

  lemma QuietStepKeepsRuns(a: Agent, s: Step, template: PlaybookSpec)
    requires !s.Push?
    ensures HasRun(a, template) ==> HasRun(Apply(a, s), template)
  {
    if s.RunPlaybook? && s.index < |a.playbooks| {
      PassKeepsEnd(a.playbooks[s.index], s.input);
    }
    HasRunIsKept(a, Apply(a, s), template);
  }

  /** What a step other than a spec change leaves alone: the specs, everything that has run, and a settled phase
      once it is decided for the current generation. */
  lemma QuietStep(a: Agent, s: Step, template: PlaybookSpec)
    requires Inv(a) && !s.Push?
    ensures var b := Apply(a, s);
            && Inv(b) && b.specs == a.specs
            && (HasRun(a, template) ==> HasRun(b, template))
            && (a.observed == a.Generation() ==> b.observed == b.Generation())
            && (a.decided == a.Generation() ==>
                  b.decided == b.Generation() && (Settled(a.phase) ==> b.phase == a.phase))
  {
    QuietStepKeepsRuns(a, s, template);
    StepKeepsInv(a, s);
  }

  /** A spec change leaves the playbooks alone. */
  lemma PushStep(a: Agent, spec: DeploymentSpec)
    requires Inv(a)
    ensures var b := Apply(a, Push(spec));
            && Inv(b) && Last(b.specs) == StoreDeployment(spec) && b.playbooks == a.playbooks
  {
    StepKeepsInv(a, Push(spec));
  }
}

/**
 Deletion of an agent, its machine and the machine's playbooks and deployments through finalizers
 (kubeforceagent_controller.go, kubeforcemachine_controller.go, playbook_controller.go and
 playbookdeployment_controller.go of cluster-api-provider-kubeforce/controllers).

 `World` holds one agent, one machine and every object labelled with the agent; `Apply` makes one API call of one
 controller, of a user, or of the environment. Agent and machine carry their finalizers from the start. An object
 whose deletion is marked disappears once it has no finalizer.
 */
module DeletionCascade {
  import opened Common

  datatype Kind = PlaybookKind | DeploymentKind

  type Role = nat

  /** A management playbook or playbook deployment labelled with the agent. `owned`: it carries the machine's labels
      as well; `external`: its ExternalName is set; `ready`: it is synced and succeeded. */
  datatype Object = Object(
    kind: Kind, role: Role, owned: bool, deleting: bool, finalizer: bool, external: bool, ready: bool)

  datatype Agent = Agent(deleting: bool, healthy: bool, labelled: bool)

  /** `hasRef`: AgentRef is set; `cleaned`: the cleanup condition is true on the stored machine; `cleaning`: a pass
      in progress has it in memory. */
  datatype Machine = Machine(deleting: bool, hasRef: bool, cleaned: bool, cleaning: bool)

  /** A template of the cleanup type: its role and the kind of object made from it. */
  datatype Cleaner = Cleaner(role: Role, kind: Kind)

  /** The templates of the machine, by type, the cleanup ones in order of priority; the boot playbook counts as an
      install role. */
  datatype Roles = Roles(install: set<Role>, cleanup: seq<Cleaner>)
  {
    predicate Valid() { forall c | c in cleanup :: c.role !in install }

    predicate Cleans(r: Role) { exists c :: c in cleanup && c.role == r }
  }

  datatype World = World(agent: Option<Agent>, machine: Option<Machine>, objects: map<nat, Object>, roles: Roles)

  datatype Step =
    // users and the environment
    | DeleteAgent
    | DeleteMachine
    | DeleteObject(k: nat)
    | Health(ok: bool)
    | AddForeign(k: nat, kind: Kind)
    // the agent's controller
    | AgentPass(uninstalled: bool)
    // the machine's controller
    | Claim(recorded: bool)
    | RecordClaim
    | Install(k: nat, kind: Kind, role: Role)
    | DropUnclaimed
    | Sweep(k: nat)
    | ForceClean(waited: bool)
    | CreateCleaner(k: nat, index: nat)
    | CleanersReady
    | EndPass(lost: bool)
    | Release
    // the controllers of playbooks and deployments
    | AddFinalizer(k: nat)
    | Sync(k: nat)
    | Succeed(k: nat)
    | Finish(k: nat, waited: bool, gone: bool)

  predicate NoInstall(w: World) {
    forall k | k in w.objects && w.objects[k].owned :: w.objects[k].role !in w.roles.install
  }

  predicate NoInstallPlaybook(w: World) {
    forall k | k in w.objects && w.objects[k].owned && w.objects[k].kind.PlaybookKind? ::
      w.objects[k].role !in w.roles.install
  }

  predicate NoOwned(w: World) { forall k | k in w.objects :: !w.objects[k].owned }

  predicate NoOwnedPlaybook(w: World) {
    forall k | k in w.objects && w.objects[k].kind.PlaybookKind? :: !w.objects[k].owned
  }

  /** The machine's objects made from a template. */
  function MadeFrom(w: World, c: Cleaner): set<nat> {
    set k | k in w.objects && w.objects[k].owned && w.objects[k].role == c.role && w.objects[k].kind == c.kind
  }

  predicate RoleReady(w: World, c: Cleaner) { exists k :: k in MadeFrom(w, c) && w.objects[k].ready }

  /** The machine is marked for deletion, recorded its agent, and the agent object is there. */
  predicate Leaving(w: World) {
    w.machine.Some? && w.machine.value.deleting && w.machine.value.hasRef && w.agent.Some?
  }

  predicate Healthy(w: World) { w.agent.Some? && w.agent.value.healthy }

  predicate Cleaned(w: World) { w.machine.Some? && (w.machine.value.cleaned || w.machine.value.cleaning) }

  /** The machine's pass deletes install objects first, playbooks before deployments; everything else only after the
      cleanup, playbooks before deployments again. */
  predicate MaySweep(w: World, o: Object) {
    && o.owned && !o.deleting
    && (if o.role in w.roles.install then o.kind.PlaybookKind? || NoInstallPlaybook(w)
        else NoInstall(w) && Cleaned(w) && (o.kind.PlaybookKind? || NoOwnedPlaybook(w)))
  }

  predicate Enabled(w: World, s: Step) {
    match s
    case DeleteAgent => w.agent.Some?
    case DeleteMachine => w.machine.Some?
    case DeleteObject(k) => k in w.objects
    case Health(_) => w.agent.Some?
    case AddForeign(k, _) => k !in w.objects && w.agent.Some?
    case AgentPass(_) => w.agent.Some? && w.agent.value.deleting
    case Claim(_) =>
      w.machine.Some? && !w.machine.value.deleting && !w.machine.value.hasRef && Healthy(w) && !w.agent.value.labelled
    case RecordClaim =>
      w.machine.Some? && !w.machine.value.deleting && !w.machine.value.hasRef && w.agent.Some? && w.agent.value.labelled
    case Install(k, kind, r) =>
      w.machine.Some? && !w.machine.value.deleting && w.machine.value.hasRef && Healthy(w)
      && r in w.roles.install && MadeFrom(w, Cleaner(r, kind)) == {} && k !in w.objects
    case DropUnclaimed => w.machine.Some? && w.machine.value.deleting && !w.machine.value.hasRef
    case Sweep(k) => Leaving(w) && k in w.objects && MaySweep(w, w.objects[k])
    case ForceClean(waited) =>
      Leaving(w) && NoInstall(w) && !Cleaned(w) && !Healthy(w) && waited && w.agent.value.deleting
    case CreateCleaner(k, i) =>
      Leaving(w) && NoInstall(w) && !Cleaned(w) && Healthy(w) && k !in w.objects && i < |w.roles.cleanup|
      && MadeFrom(w, w.roles.cleanup[i]) == {} && forall j | 0 <= j < i :: RoleReady(w, w.roles.cleanup[j])
    case CleanersReady =>
      Leaving(w) && NoInstall(w) && !Cleaned(w) && Healthy(w)
      && forall j | 0 <= j < |w.roles.cleanup| :: RoleReady(w, w.roles.cleanup[j])
    case EndPass(_) => w.machine.Some? && w.machine.value.cleaning
    case Release => Leaving(w) && NoInstall(w) && Cleaned(w) && NoOwned(w)
    case AddFinalizer(k) => k in w.objects && !w.objects[k].deleting && !w.objects[k].finalizer
    case Sync(k) =>
      k in w.objects && !w.objects[k].deleting && w.objects[k].finalizer && Healthy(w) && !w.objects[k].external
    case Succeed(k) =>
      k in w.objects && w.objects[k].external && !w.objects[k].deleting && Healthy(w) && !w.objects[k].ready
    case Finish(k, waited, gone) =>
      k in w.objects && w.objects[k].deleting
      && (w.objects[k].external ==>
            w.agent.Some? && if w.agent.value.healthy then gone else waited && w.agent.value.deleting)
  }

  /** A delete call: the object goes at once if it has no finalizer. */
  function Mark(objects: map<nat, Object>, k: nat): map<nat, Object>
    requires k in objects
  {
    if objects[k].deleting then objects
    else if objects[k].finalizer then objects[k := objects[k].(deleting := true)]
    else objects - {k}
  }

  function WithAgent(w: World, a: Agent): World { w.(agent := Some(a)) }

  function WithMachine(w: World, m: Machine): World { w.(machine := Some(m)) }

  function Add(w: World, k: nat, kind: Kind, r: Role, owned: bool): World {
    w.(objects := w.objects[k := Object(kind, r, owned, false, false, false, false)])
  }

  function Apply(w: World, s: Step): World {
    if !Enabled(w, s) then w
    else match s
      case DeleteAgent => WithAgent(w, w.agent.value.(deleting := true))
      case DeleteMachine => WithMachine(w, w.machine.value.(deleting := true))
      case DeleteObject(k) => w.(objects := Mark(w.objects, k))
      case Health(ok) => WithAgent(w, w.agent.value.(healthy := ok))
      case AddForeign(k, kind) => Add(w, k, kind, 0, false)
      case AgentPass(uninstalled) =>
        if w.agent.value.labelled && w.machine.Some? then WithMachine(w, w.machine.value.(deleting := true))
        else if w.objects != map[] || (w.agent.value.healthy && !uninstalled) then w
        else w.(agent := None)
      case Claim(recorded) =>
        WithMachine(WithAgent(w, w.agent.value.(labelled := true)), w.machine.value.(hasRef := recorded))
      case RecordClaim => WithMachine(w, w.machine.value.(hasRef := true))
      case Install(k, kind, r) => Add(w, k, kind, r, true)
      case DropUnclaimed => w.(machine := None)
      case Sweep(k) => w.(objects := Mark(w.objects, k))
      case ForceClean(_) => WithMachine(w, w.machine.value.(cleaning := true))
      case CreateCleaner(k, i) => Add(w, k, w.roles.cleanup[i].kind, w.roles.cleanup[i].role, true)
      case CleanersReady => WithMachine(w, w.machine.value.(cleaning := true))
      case EndPass(lost) =>
        WithMachine(w, w.machine.value.(cleaning := false, cleaned := w.machine.value.cleaned || !lost))
      case Release => w.(agent := Some(w.agent.value.(labelled := false)), machine := None)
      case AddFinalizer(k) => w.(objects := w.objects[k := w.objects[k].(finalizer := true)])
      case Sync(k) => w.(objects := w.objects[k := w.objects[k].(external := true)])
      case Succeed(k) => w.(objects := w.objects[k := w.objects[k].(ready := true)])
      case Finish(k, _, _) => w.(objects := w.objects - {k})
  }

  function Run(w: World, steps: seq<Step>): World
    decreases |steps|
  {
    if steps == [] then w else Run(Apply(w, steps[0]), steps[1..])
  }

  // ---- Order ------------------------------------------------------------------------------------

  predicate NoCleaner(w: World) {
    forall k | k in w.objects && w.objects[k].owned :: !w.roles.Cleans(w.objects[k].role)
  }

  /** Kept by every step:
      - objects of the machine exist only while agent and machine do, and the machine holds the agent;
      - a machine that recorded its agent is the one the agent is labelled with;
      - cleaners, and a true cleanup condition, exist only on a leaving machine without install objects;
      - no object labelled with the agent outlives it. */
  predicate Inv(w: World) {
    && w.roles.Valid()
    && (!NoOwned(w) ==> w.agent.Some? && w.machine.Some? && w.machine.value.hasRef)
    && (w.machine.Some? && w.machine.value.hasRef ==> w.agent.Some? && w.agent.value.labelled)
    && (!NoCleaner(w) || Cleaned(w) ==>
          w.machine.Some? && w.machine.value.deleting && w.machine.value.hasRef && NoInstall(w))
    && (forall k | k in w.objects && w.objects[k].deleting :: w.objects[k].finalizer)
    && (w.agent.None? ==> w.objects == map[])
  }

  predicate OfObject(s: Step) {
    s.DeleteObject? || s.Sweep? || s.AddFinalizer? || s.Sync? || s.Succeed? || s.Finish?
  }

  lemma ObjectStepKeepsInv(w: World, s: Step)
    requires Inv(w) && OfObject(s)
    ensures Inv(Apply(w, s))
  {
  }

  lemma OtherStepKeepsInv(w: World, s: Step)
    requires Inv(w) && !OfObject(s)
    ensures Inv(Apply(w, s))
  {
  }

  lemma StepKeepsInv(w: World, s: Step)
    requires Inv(w)
    ensures Inv(Apply(w, s))
  {
    if OfObject(s) { ObjectStepKeepsInv(w, s); } else { OtherStepKeepsInv(w, s); }
  }

  lemma {:induction false} RunKeepsInv(w: World, steps: seq<Step>)
    requires Inv(w)
    ensures Inv(Run(w, steps))
    decreases |steps|
  {
    if steps != [] {
      StepKeepsInv(w, steps[0]);
      RunKeepsInv(Apply(w, steps[0]), steps[1..]);
    }
  }

  /** An agent that is there, a machine that is not yet deleted, and nothing else. */
  predicate Fresh(w: World) {
    && w.roles.Valid() && w.objects == map[] && w.agent.Some? && !w.agent.value.labelled
    && w.machine == Some(Machine(false, false, false, false))
  }

  /** In every run: a cleanup object, or a completed cleanup, implies that no install playbook or deployment of the
      machine is left; and while any object of the machine is left, the agent is neither released nor gone. */
  lemma DeletionIsOrdered(w: World, steps: seq<Step>)
    requires Fresh(w)
    ensures var v := Run(w, steps);
            && (!NoCleaner(v) || Cleaned(v) ==> NoInstall(v))
            && (!NoOwned(v) ==> v.agent.Some? && v.agent.value.labelled && v.machine.Some? && v.machine.value.hasRef)
            && (v.agent.None? ==> v.objects == map[])
  {
    RunKeepsInv(w, steps);
  }

  /** A machine that recorded its agent goes only together with the release of the agent, and only after all its
      objects. */
  lemma MachineGoesLast(w: World, s: Step)
    requires Inv(w) && w.machine.Some? && w.machine.value.hasRef && Apply(w, s).machine.None?
    ensures Leaving(w) && NoOwned(w) && Cleaned(w)
    ensures var v := Apply(w, s); v.agent.Some? && !v.agent.value.labelled && v.objects == w.objects
  {
  }

  /** The machine's objects in v were its objects in w. */
  predicate OnlyFewer(w: World, v: World) {
    forall k | k in v.objects && v.objects[k].owned :: k in w.objects && w.objects[k].owned
  }

  predicate CleanedOrGone(w: World) { w.machine.Some? ==> w.machine.value.cleaned }

  lemma CleanedStep(w: World, s: Step)
    requires Inv(w) && CleanedOrGone(w)
    ensures OnlyFewer(w, Apply(w, s)) && CleanedOrGone(Apply(w, s))
  {
  }

  /** Once the stored cleanup condition is true, the machine's objects only become fewer. */
  lemma {:induction false} NothingIsCreatedAfterCleanup(w: World, steps: seq<Step>)
    requires Inv(w) && CleanedOrGone(w)
    ensures OnlyFewer(w, Run(w, steps)) && CleanedOrGone(Run(w, steps))
    decreases |steps|
  {
    if steps != [] {
      var v := Apply(w, steps[0]);
      StepKeepsInv(w, steps[0]);
      CleanedStep(w, steps[0]);
      NothingIsCreatedAfterCleanup(v, steps[1..]);
      assert OnlyFewer(v, Run(v, steps[1..]));
    }
  }

  // ---- Forced deletion --------------------------------------------------------------------------

  /** A step of a controller whose status patches are stored. */
  predicate ByController(s: Step) {
    !s.DeleteAgent? && !s.DeleteMachine? && !s.DeleteObject? && !s.Health? && !s.AddForeign? && (s.EndPass? ==> !s.lost)
  }

  /** The agent is marked for deletion and stays unhealthy. */
  predicate Condemned(w: World) {
    && Inv(w)
    && w.agent.Some? && w.agent.value.deleting && !w.agent.value.healthy
    && (w.agent.value.labelled || w.machine.None?)
  }

  /** Every object labelled with the agent is the machine's, or is marked for deletion already. */
  predicate AllGoing(w: World) { forall k | k in w.objects :: w.objects[k].owned || w.objects[k].deleting }

  predicate Forced(w: World) { Condemned(w) && AllGoing(w) }

  predicate Gone(w: World) { w.agent.None? && w.machine.None? && w.objects == map[] }

  function Present(w: World): set<nat> { w.objects.Keys }

  function Unmarked(w: World): set<nat> { set k | k in w.objects && !w.objects[k].deleting }

  function Bare(w: World): set<nat> { set k | k in w.objects && !w.objects[k].deleting && !w.objects[k].finalizer }

  function MachineWeight(m: Option<Machine>): nat {
    if m.None? then 0
    else if !m.value.hasRef then (if m.value.deleting then 1 else 6)
    else
      var cleanup := if m.value.cleaning then 1 else if m.value.cleaned then 0 else 2;
      (if m.value.deleting then 1 else 3) + cleanup
  }

  /** What is left to do: objects, missing deletion marks, missing finalizers, and the stages of machine and agent. */
  function Measure(w: World): nat {
    |Present(w)| + |Unmarked(w)| + |Bare(w)| + MachineWeight(w.machine) + (if w.agent.Some? then 1 else 0)
  }

  lemma {:induction false} Smaller(s: set<nat>, t: set<nat>)
    requires s <= t
    ensures |s| <= |t| && (s != t ==> |s| < |t|)
  {
    if x :| x in t {
      if x in s {
        Smaller(s - {x}, t - {x});
        assert s != t ==> s - {x} != t - {x};
      } else {
        Smaller(s, t - {x});
      }
    }
  }

  lemma ObjectsShrink(w: World, v: World)
    requires Present(v) <= Present(w) && Unmarked(v) <= Unmarked(w) && Bare(v) <= Bare(w)
    ensures |Present(v)| + |Unmarked(v)| + |Bare(v)| <= |Present(w)| + |Unmarked(w)| + |Bare(w)|
    ensures Present(v) != Present(w) || Unmarked(v) != Unmarked(w) || Bare(v) != Bare(w) ==>
              |Present(v)| + |Unmarked(v)| + |Bare(v)| < |Present(w)| + |Unmarked(w)| + |Bare(w)|
  {
    Smaller(Present(v), Present(w));
    Smaller(Unmarked(v), Unmarked(w));
    Smaller(Bare(v), Bare(w));
  }

  lemma ForcedStepStaysForced(w: World, s: Step)
    requires Forced(w) && ByController(s)
    ensures Forced(Apply(w, s)) || Gone(Apply(w, s))
  {
    StepKeepsInv(w, s);
  }

  lemma ObjectStepCounts(w: World, s: Step)
    requires Forced(w) && (s.Sweep? || s.AddFinalizer? || s.Finish?) && Apply(w, s) != w
    ensures Measure(Apply(w, s)) < Measure(w)
  {
    var v := Apply(w, s);
    OneObjectGoesOn(w, v, s.k);
  }

  /** One object goes, or is marked, or gets its finalizer. */
  lemma OneObjectGoesOn(w: World, v: World, k: nat)
    requires k in w.objects && v.machine == w.machine && v.agent == w.agent
    requires v.objects == w.objects - {k}
             || (k in v.objects && v.objects == w.objects[k := v.objects[k]]
                 && (v.objects[k] == w.objects[k].(deleting := true)
                     || v.objects[k] == w.objects[k].(finalizer := true))
                 && v.objects[k] != w.objects[k] && !w.objects[k].deleting)
    ensures Measure(v) < Measure(w)
  {
    assert k in Present(w) && (k in Present(v) ==> k in Unmarked(w));
    assert k in Present(v) && k in Unmarked(v) ==> k in Bare(w) && k !in Bare(v);
    ObjectsShrink(w, v);
  }

  lemma ForcedStepCounts(w: World, s: Step)
    requires Forced(w) && ByController(s) && Apply(w, s) != w
    ensures Measure(Apply(w, s)) < Measure(w)
  {
    if s.Sweep? || s.AddFinalizer? || s.Finish? {
      ObjectStepCounts(w, s);
    }
  }

  /** Every controller step that changes anything lowers the measure, and leads on to a forced deletion or its end. */
  lemma ForcedStepDescends(w: World, s: Step)
    requires Forced(w) && ByController(s)
    ensures var v := Apply(w, s);
            v == w || (Measure(v) < Measure(w) && (Forced(v) || Gone(v)))
  {
    ForcedStepStaysForced(w, s);
    if Apply(w, s) != w {
      ForcedStepCounts(w, s);
    }
  }

  /** A step for an object that is due: its deletion mark, or its end. */
  function Next(w: World, k: nat): Step
    requires k in w.objects
  {
    if w.objects[k].deleting then Finish(k, true, true) else Sweep(k)
  }

  lemma NextChanges(w: World, k: nat)
    requires Forced(w) && k in w.objects && Leaving(w)
    requires w.objects[k].deleting || MaySweep(w, w.objects[k])
    ensures Apply(w, Next(w, k)) != w
  {
    assert w.objects[k].deleting ==> Apply(w, Next(w, k)).objects == w.objects - {k};
    assert k in w.objects && (w.objects[k].deleting ==> k !in Apply(w, Next(w, k)).objects);
  }

  /** Forced deletion never deadlocks: some controller always has a step that changes something. */
  lemma ForcedNeverStuck(w: World) returns (s: Step)
    requires Forced(w)
    ensures ByController(s) && Apply(w, s) != w
  {
    if k :| k in w.objects && w.objects[k].deleting {
      s := Next(w, k);
      assert k !in Apply(w, s).objects;
    } else if w.machine.None? || !w.machine.value.deleting {
      s := AgentPass(true);
      if w.machine.None? { assert NoOwned(w); assert w.objects == map[]; }
    } else if !w.machine.value.hasRef {
      s := DropUnclaimed;
    } else if k :| k in w.objects && w.objects[k].role in w.roles.install && w.objects[k].kind.PlaybookKind? {
      s := Next(w, k);
      NextChanges(w, k);
    } else if k :| k in w.objects && w.objects[k].role in w.roles.install {
      s := Next(w, k);
      NextChanges(w, k);
    } else if !Cleaned(w) {
      s := ForceClean(true);
    } else if k :| k in w.objects && w.objects[k].kind.PlaybookKind? {
      s := Next(w, k);
      NextChanges(w, k);
    } else if k :| k in w.objects {
      s := Next(w, k);
      NextChanges(w, k);
    } else {
      s := Release;
    }
  }

  function EffectiveCount(w: World, steps: seq<Step>): nat
    decreases |steps|
  {
    if steps == [] then 0
    else (if Apply(w, steps[0]) != w then 1 else 0) + EffectiveCount(Apply(w, steps[0]), steps[1..])
  }

  lemma {:induction false} GoneStays(w: World, steps: seq<Step>)
    requires Gone(w)
    ensures Run(w, steps) == w && EffectiveCount(w, steps) == 0
    decreases |steps|
  {
    if steps != [] {
      assert Apply(w, steps[0]) == w;
      GoneStays(w, steps[1..]);
    }
  }

  /** In whatever order the controllers run, they change something at most Measure times; and when no controller can
      change anything any more, agent, machine, playbooks and deployments are gone. */
  lemma {:induction false} ForcedDeletionEnds(w: World, steps: seq<Step>)
    requires Forced(w) && forall s | s in steps :: ByController(s)
    ensures EffectiveCount(w, steps) <= Measure(w)
    ensures Gone(Run(w, steps)) || exists s :: ByController(s) && Apply(Run(w, steps), s) != Run(w, steps)
    decreases |steps|
  {
    if steps == [] {
      var s := ForcedNeverStuck(w);
      assert ByController(s) && Apply(Run(w, steps), s) != Run(w, steps);
    } else {
      var v := Apply(w, steps[0]);
      assert steps[0] in steps;
      ForcedStepDescends(w, steps[0]);
      if v == w || Forced(v) {
        ForcedDeletionEnds(v, steps[1..]);
      } else {
        GoneStays(v, steps[1..]);
      }
    }
  }

  /** Such an end is within reach from every forced deletion. */
  lemma {:induction false} ForcedDeletionCanEnd(w: World) returns (steps: seq<Step>)
    requires Forced(w)
    ensures (forall s | s in steps :: ByController(s)) && Gone(Run(w, steps))
    decreases Measure(w)
  {
    var s := ForcedNeverStuck(w);
    ForcedStepDescends(w, s);
    var rest: seq<Step> := [];
    if Forced(Apply(w, s)) {
      rest := ForcedDeletionCanEnd(Apply(w, s));
    }
    steps := [s] + rest;
    assert steps[1..] == rest;
  }

  /** An object labelled with the agent that is neither the machine's nor marked is deleted by no controller, and the
      agent waits for it for ever. */
  lemma {:induction false} ForeignObjectBlocks(w: World, k: nat, steps: seq<Step>)
    requires w.agent.Some? && k in w.objects && !w.objects[k].owned && !w.objects[k].deleting
    requires DeleteObject(k) !in steps
    ensures var v := Run(w, steps);
            v.agent.Some? && k in v.objects && !v.objects[k].owned && !v.objects[k].deleting
    decreases |steps|
  {
    if steps != [] {
      assert steps[0] in steps;
      ForeignObjectBlocks(Apply(w, steps[0]), k, steps[1..]);
    }
  }

  predicate AllByController(steps: seq<Step>) { forall s | s in steps :: ByController(s) }

  /** The controllers alone can bring such a deletion to its end exactly when every object labelled with the agent is
      the machine's or is marked already. */
  lemma ForcedDeletionEndsExactly(w: World)
    requires Condemned(w)
    ensures (exists steps :: AllByController(steps) && Gone(Run(w, steps))) <==> AllGoing(w)
  {
    if AllGoing(w) {
      var steps := ForcedDeletionCanEnd(w);
      assert AllByController(steps);
    } else {
      var k :| k in w.objects && !w.objects[k].owned && !w.objects[k].deleting;
      forall steps | AllByController(steps) ensures !Gone(Run(w, steps)) {
        assert DeleteObject(k) !in steps;
        ForeignObjectBlocks(w, k, steps);
      }
    }
  }
}

/**
 What the deletion passes achieve: a pass leaves the world alone only where its controller has nothing to do, so the
 passes themselves bring a forced deletion to its end, and a healthy one only ever waits for an object.
 */
module DeletionProgress {
  import opened Common
  import opened DeletionCascade
  import opened DeletionController

  // ---- A pass of the machine's controller -------------------------------------------------------

  /** No pass is in progress over a machine that is leaving. */
  predicate Resting(w: World) { Leaving(w) && !w.machine.value.cleaning }

  /** A loop that changes nothing has found only objects that are marked already. */
  lemma LoopChangesNothing(w: World, f: Filter)
    requires MarkAll(w.roles, f, w.objects, {}) == w.objects
    ensures forall k | k in w.objects && Matches(w.roles, f, w.objects[k]) :: w.objects[k].deleting
  {
    forall k | k in w.objects && Matches(w.roles, f, w.objects[k]) ensures w.objects[k].deleting {
      assert k in MarkAll(w.roles, f, w.objects, {});
      assert MarkAll(w.roles, f, w.objects, {})[k] == w.objects[k];
    }
  }

  /** With every call answered, a pass that changes nothing has no object to delete: none that its order allows is
      unmarked. */
  lemma NothingToSweep(w: World, waited: bool, e: Cleaning, k: nat)
    requires Inv(w) && Resting(w) && DeletePass(w, waited, e, false, {}) == w
    ensures Apply(w, Sweep(k)) == w
  {
    if Enabled(w, Sweep(k)) {
      var o := w.objects[k];
      var install := o.role in w.roles.install;
      assert Matches(w.roles, Filter(o.kind, install), o);
      if AnyMatches(w.roles, Filter(PlaybookKind, true), w.objects) {
        LoopChangesNothing(w, Filter(PlaybookKind, true));
      } else if AnyMatches(w.roles, Filter(DeploymentKind, true), w.objects) {
        LoopChangesNothing(w, Filter(DeploymentKind, true));
      } else {
        RestChangesNothing(w);
      }
    }
  }

  /** The same for the rest of a pass over a machine whose cleanup condition is stored. */
  lemma RestChangesNothing(w: World)
    requires Resting(w) && w.machine.value.cleaned && AfterCleanup(w, false, {}) == w
    ensures forall k | k in w.objects && w.objects[k].owned && w.objects[k].kind.PlaybookKind? :: w.objects[k].deleting
    ensures exists k :: k in w.objects && w.objects[k].owned && w.objects[k].deleting
    ensures NoOwnedPlaybook(w) ==> forall k | k in w.objects && w.objects[k].owned :: w.objects[k].deleting
  {
    if AnyMatches(w.roles, Filter(PlaybookKind, false), w.objects) {
      LoopChangesNothing(w, Filter(PlaybookKind, false));
      var k :| k in w.objects && Matches(w.roles, Filter(PlaybookKind, false), w.objects[k]);
      assert w.objects[k].deleting;
    } else {
      LoopChangesNothing(w, Filter(DeploymentKind, false));
      var k :| k in w.objects && Matches(w.roles, Filter(DeploymentKind, false), w.objects[k]);
      assert w.objects[k].deleting;
    }
  }

  /** Over an unhealthy agent that is marked for deletion, waits over: a pass that changes nothing leaves no step of its
      controller that would, no deletion, no forced cleanup and no release. */
  lemma ForcedPassProgresses(w: World, e: Cleaning, k: nat)
    requires Inv(w) && Resting(w) && !w.agent.value.healthy && w.agent.value.deleting
    requires DeletePass(w, true, e, false, {}) == w
    ensures Apply(w, Sweep(k)) == w && Apply(w, ForceClean(true)) == w && Apply(w, Release) == w
  {
    NothingToSweep(w, true, e, k);
    NoInstallMatches(w);
  }

  lemma NoInstallMatches(w: World)
    ensures NoInstall(w) <==> !AnyMatches(w.roles, Filter(PlaybookKind, true), w.objects)
                              && !AnyMatches(w.roles, Filter(DeploymentKind, true), w.objects)
    ensures NoOwned(w) <==> !AnyMatches(w.roles, Filter(PlaybookKind, false), w.objects)
                            && !AnyMatches(w.roles, Filter(DeploymentKind, false), w.objects)
  {
    if k :| k in w.objects && w.objects[k].owned {
      assert Matches(w.roles, Filter(w.objects[k].kind, false), w.objects[k]);
      if w.objects[k].role in w.roles.install {
        assert Matches(w.roles, Filter(w.objects[k].kind, true), w.objects[k]);
      }
    }
    if !NoInstall(w) {
      var k :| k in w.objects && w.objects[k].owned && w.objects[k].role in w.roles.install;
      assert Matches(w.roles, Filter(w.objects[k].kind, true), w.objects[k]);
    }
  }

  /** Where a pass lets the machine go, it has released the agent, and no object of the machine was left. */
  lemma PassReleases(w: World, waited: bool, e: Cleaning, lost: bool, but: set<nat>)
    requires Inv(w) && Resting(w) && DeletePass(w, waited, e, lost, but).machine.None?
    ensures var v := DeletePass(w, waited, e, lost, but);
            NoOwned(w) && v.objects == w.objects && v.agent == Some(w.agent.value.(labelled := false))
  {
    NoInstallMatches(w);
    if w.agent.value.healthy && !w.machine.value.cleaned && !CleanerPass(w, 0, e).1 && NoInstall(w) {
      CleanerPassKeepsMachine(w, 0, e);
    }
  }

  lemma {:induction false} CleanerPassKeepsMachine(w: World, i: nat, e: Cleaning)
    ensures CleanerPass(w, i, e).0.machine == w.machine
    decreases |w.roles.cleanup| - i
  {
    if i < |w.roles.cleanup| { CleanerPassKeepsMachine(w, i + 1, e); }
  }

  // ---- The pass over the cleanup templates ------------------------------------------------------

  /** The calls of the cleanup pass succeed, its new name is fresh, and no template has two objects. */
  predicate Smooth(w: World, e: Cleaning) {
    && !e.create.Rejected? && e.k !in w.objects && e.stop >= |w.roles.cleanup|
    && forall i | 0 <= i < |w.roles.cleanup| :: |MadeFrom(w, w.roles.cleanup[i])| <= 1
  }

  /** Past templates that are ready, the pass comes to the i-th one. */
  lemma {:induction false} CleanerPassReaches(w: World, from: nat, i: nat, e: Cleaning)
    requires Smooth(w, e) && from <= i <= |w.roles.cleanup|
    requires forall j | from <= j < i :: RoleReady(w, w.roles.cleanup[j])
    ensures CleanerPass(w, from, e) == CleanerPass(w, i, e)
    decreases i - from
  {
    if from < i {
      assert RoleReady(w, w.roles.cleanup[from]);
      CleanerPassReaches(w, from + 1, i, e);
    }
  }

  /** The first template that is not ready yet. */
  lemma {:induction false} FirstUnready(w: World, n: nat) returns (i: nat)
    requires n <= |w.roles.cleanup|
    ensures i <= n && forall j | 0 <= j < i :: RoleReady(w, w.roles.cleanup[j])
    ensures i < n ==> !RoleReady(w, w.roles.cleanup[i])
  {
    if n == 0 {
      i := 0;
    } else {
      i := FirstUnready(w, n - 1);
      if i == n - 1 && RoleReady(w, w.roles.cleanup[i]) { i := n; }
    }
  }

  /** The first template without an object gets one. */
  lemma CleanerCreates(w: World, i: nat, e: Cleaning)
    requires Smooth(w, e) && i < |w.roles.cleanup| && MadeFrom(w, w.roles.cleanup[i]) == {}
    requires forall j | 0 <= j < i :: RoleReady(w, w.roles.cleanup[j])
    ensures e.k in CleanerPass(w, 0, e).0.objects && !CleanerPass(w, 0, e).1
  {
    CleanerPassReaches(w, 0, i, e);
  }

  /** Over a healthy agent: a pass that changes nothing leaves no step of its controller that would, no deletion, no
      creation of a cleanup object, no end of the cleanup and no release. */
  lemma HealthyPassProgresses(w: World, waited: bool, e: Cleaning, k: nat, i: nat)
    requires Inv(w) && Resting(w) && w.agent.value.healthy && Smooth(w, e)
    requires DeletePass(w, waited, e, false, {}) == w
    ensures Apply(w, Sweep(k)) == w && Apply(w, CreateCleaner(e.k, i)) == w
    ensures Apply(w, CleanersReady) == w && Apply(w, Release) == w
  {
    NothingToSweep(w, waited, e, k);
    NothingToClean(w, waited, e, i);
    NothingToRelease(w, waited, e);
  }

  lemma NothingToClean(w: World, waited: bool, e: Cleaning, i: nat)
    requires Inv(w) && Resting(w) && w.agent.value.healthy && Smooth(w, e)
    requires DeletePass(w, waited, e, false, {}) == w
    ensures !Enabled(w, CreateCleaner(e.k, i)) && !Enabled(w, CleanersReady)
  {
    NoInstallMatches(w);
    if Enabled(w, CreateCleaner(e.k, i)) {
      CleanerCreates(w, i, e);
    } else if Enabled(w, CleanersReady) {
      CleanerPassReaches(w, 0, |w.roles.cleanup|, e);
    }
  }

  lemma NothingToRelease(w: World, waited: bool, e: Cleaning)
    requires Inv(w) && Resting(w) && DeletePass(w, waited, e, false, {}) == w
    ensures !Enabled(w, Release)
  {
    NoInstallMatches(w);
  }

  /** An object that the pass waits for: it is on its way out, or a cleanup object that is not ready. */
  predicate Awaited(w: World, k: nat) {
    k in w.objects && w.objects[k].owned
    && (w.objects[k].deleting || (w.roles.Cleans(w.objects[k].role) && !w.objects[k].ready))
  }

  /** Such a pass over a healthy agent waits for one of the machine's objects. */
  lemma HealthyPassWaits(w: World, waited: bool, e: Cleaning) returns (k: nat)
    requires Inv(w) && Resting(w) && w.agent.value.healthy && Smooth(w, e)
    requires DeletePass(w, waited, e, false, {}) == w
    ensures Awaited(w, k)
  {
    if AnyMatches(w.roles, Filter(PlaybookKind, true), w.objects) {
      LoopChangesNothing(w, Filter(PlaybookKind, true));
      k :| k in w.objects && Matches(w.roles, Filter(PlaybookKind, true), w.objects[k]);
    } else if AnyMatches(w.roles, Filter(DeploymentKind, true), w.objects) {
      LoopChangesNothing(w, Filter(DeploymentKind, true));
      k :| k in w.objects && Matches(w.roles, Filter(DeploymentKind, true), w.objects[k]);
    } else if w.machine.value.cleaned {
      RestChangesNothing(w);
      k :| k in w.objects && w.objects[k].owned && w.objects[k].deleting;
    } else {
      var i := FirstUnready(w, |w.roles.cleanup|);
      CleanerPassReaches(w, 0, i, e);
      assert i < |w.roles.cleanup|;
      var c := w.roles.cleanup[i];
      if MadeFrom(w, c) == {} {
        CleanerCreates(w, i, e);
        assert false;
      }
      k :| k in MadeFrom(w, c);
    }
  }

  /** And over a healthy agent an awaited object never rests: its own controller, or the agent, brings it on. */
  lemma AwaitedMovesOn(w: World, k: nat) returns (s: Step)
    requires Inv(w) && w.agent.Some? && w.agent.value.healthy && Awaited(w, k)
    ensures s in {Finish(k, true, true), AddFinalizer(k), Sync(k), Succeed(k)} && Apply(w, s) != w
  {
    var o := w.objects[k];
    if o.deleting {
      s := Finish(k, true, true);
      assert k !in Apply(w, s).objects;
    } else {
      s := if !o.finalizer && !o.external then AddFinalizer(k) else if !o.external then Sync(k) else Succeed(k);
      assert k in Apply(w, s).objects && Apply(w, s).objects[k] != o;
    }
  }

  // ---- Passes alone -----------------------------------------------------------------------------

  /** One pass with every call answered: of the machine's controller, the agent's, or an object's. */
  datatype Pass = MachinePass(e: Cleaning) | WholeAgentPass | ObjectPass(k: nat)

  function Passed(w: World, p: Pass): World {
    match p
    case MachinePass(e) =>
      if w.machine.Some? && w.machine.value.deleting && !w.machine.value.cleaning
      then DeletePass(w, true, e, false, {}) else w
    case WholeAgentPass => Apply(w, AgentPass(true))
    case ObjectPass(k) => Apply(w, Finish(k, true, true))
  }

  /** A forced deletion with no pass in progress. */
  predicate Ready(w: World) { Forced(w) && (w.machine.Some? ==> !w.machine.value.cleaning) }

  lemma {:induction false} ControllerRunDescends(w: World, steps: seq<Step>)
    requires Forced(w) && AllByController(steps)
    ensures var v := Run(w, steps); (v == w || Measure(v) < Measure(w)) && (Forced(v) || Gone(v))
    decreases |steps|
  {
    if steps != [] {
      var v := Apply(w, steps[0]);
      assert steps[0] in steps;
      ForcedStepDescends(w, steps[0]);
      if v == w || Forced(v) {
        ControllerRunDescends(v, steps[1..]);
      } else {
        GoneStays(v, steps[1..]);
      }
    }
  }

  /** A pass changes nothing, or it lowers the measure; and it leads on to a forced deletion or to its end. */
  lemma PassDescends(w: World, p: Pass)
    requires Ready(w)
    ensures var v := Passed(w, p); (v == w || Measure(v) < Measure(w)) && (Ready(v) || Gone(v))
  {
    match p
    case MachinePass(e) =>
      if w.machine.Some? && w.machine.value.deleting {
        var steps := DeletePassIsARun(w, true, e, false, {});
        ControllerRunDescends(w, steps);
      }
    case WholeAgentPass => ForcedStepDescends(w, AgentPass(true));
    case ObjectPass(k) => ForcedStepDescends(w, Finish(k, true, true));
  }

  /** Until everything is gone, some pass changes something; the cleanup templates do not matter. */
  lemma SomePassChanges(w: World, e: Cleaning) returns (p: Pass)
    requires Ready(w)
    ensures Passed(w, p) != w
  {
    if k :| k in w.objects && w.objects[k].deleting {
      p := ObjectPass(k);
      assert k !in Passed(w, p).objects;
    } else if w.machine.None? || !w.machine.value.deleting {
      p := WholeAgentPass;
      if w.machine.None? { assert NoOwned(w); assert w.objects == map[]; }
    } else {
      p := MachinePass(e);
      if Passed(w, p) == w && w.machine.value.hasRef {
        MachinePassHasWork(w, e);
      }
    }
  }

  /** With no object on its way out, the machine's pass has something to do. */
  lemma MachinePassHasWork(w: World, e: Cleaning)
    requires Ready(w) && Resting(w) && forall k | k in w.objects :: !w.objects[k].deleting
    ensures DeletePass(w, true, e, false, {}) != w
  {
    NoInstallMatches(w);
    var k: nat := 0;
    if w.objects == map[] || (NoInstall(w) && !Cleaned(w)) {
      assert NoInstall(w);
      assert Apply(w, ForceClean(true)) != w || Apply(w, Release) != w;
    } else {
      SomethingMaySweep(w);
      k :| k in w.objects && MaySweep(w, w.objects[k]);
      NextChanges(w, k);
    }
    if DeletePass(w, true, e, false, {}) == w {
      ForcedPassProgresses(w, e, k);
    }
  }

  /** Then some object may be deleted, unless the cleanup has to be forced first. */
  lemma SomethingMaySweep(w: World)
    requires Ready(w) && Resting(w) && w.objects != map[] && forall k | k in w.objects :: !w.objects[k].deleting
    requires NoInstall(w) ==> Cleaned(w)
    ensures exists k :: k in w.objects && MaySweep(w, w.objects[k])
  {
    if k :| k in w.objects && w.objects[k].role in w.roles.install && w.objects[k].kind.PlaybookKind? {
      assert MaySweep(w, w.objects[k]);
    } else if k :| k in w.objects && w.objects[k].role in w.roles.install {
      assert MaySweep(w, w.objects[k]);
    } else if k :| k in w.objects && w.objects[k].kind.PlaybookKind? {
      assert MaySweep(w, w.objects[k]);
    } else {
      var k :| k in w.objects;
      assert MaySweep(w, w.objects[k]);
    }
  }

  function AllPassed(w: World, passes: seq<Pass>): World
    decreases |passes|
  {
    if passes == [] then w else AllPassed(Passed(w, passes[0]), passes[1..])
  }

  function ChangingPasses(w: World, passes: seq<Pass>): nat
    decreases |passes|
  {
    if passes == [] then 0
    else (if Passed(w, passes[0]) != w then 1 else 0) + ChangingPasses(Passed(w, passes[0]), passes[1..])
  }

  lemma {:induction false} NothingPasses(w: World, passes: seq<Pass>)
    requires Gone(w)
    ensures AllPassed(w, passes) == w && ChangingPasses(w, passes) == 0
    decreases |passes|
  {
    if passes != [] { NothingPasses(w, passes[1..]); }
  }

  /** The passes themselves bring a forced deletion to its end: in whatever order they run, at most Measure of them
      change something, and as long as anything is left some pass would. */
  lemma {:induction false} ForcedPassesEnd(w: World, passes: seq<Pass>, e: Cleaning)
    requires Ready(w)
    ensures ChangingPasses(w, passes) <= Measure(w)
    ensures var v := AllPassed(w, passes); Gone(v) || exists p :: Passed(v, p) != v
    decreases |passes|
  {
    if passes == [] {
      var p := SomePassChanges(w, e);
      assert Passed(AllPassed(w, passes), p) != w;
    } else {
      var v := Passed(w, passes[0]);
      PassDescends(w, passes[0]);
      if Ready(v) { ForcedPassesEnd(v, passes[1..], e); } else { NothingPasses(v, passes[1..]); }
    }
  }

  // ---- Finalizers -------------------------------------------------------------------------------

  /** An object with a finalizer leaves only in a pass of its own controller, and only after its deletion was marked. */
  lemma FinalizerProtects(w: World, s: Step, k: nat)
    requires k in w.objects && w.objects[k].finalizer && k !in Apply(w, s).objects
    ensures s.Finish? && s.k == k && w.objects[k].deleting
  {
  }
}

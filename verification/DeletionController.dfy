/**
 The deletion passes as methods over the stored objects, and their relation to the steps of the cascade.
 */
module DeletionController {
  import opened Common
  import opened DeletionCascade

  class Cluster {
    var agent: Option<Agent>
    var machine: Option<Machine>
    var objects: map<nat, Object>
    const roles: Roles

    constructor (roles: Roles)
      ensures this.roles == roles && agent == None && machine == None && objects == map[]
    {
      agent, machine, objects, this.roles := None, None, map[], roles;
    }

    function Value(): World
      reads this
    {
      World(agent, machine, objects, roles)
    }
  }

  /** A filter of the deletion loops: the machine's objects of one kind, all of them or the install ones. */
  datatype Filter = Filter(kind: Kind, onlyInstall: bool)

  predicate Matches(roles: Roles, f: Filter, o: Object) {
    o.owned && o.kind == f.kind && (f.onlyInstall ==> o.role in roles.install)
  }

  predicate AnyMatches(roles: Roles, f: Filter, objects: map<nat, Object>) {
    exists k :: k in objects && Matches(roles, f, objects[k])
  }

  /** A delete call for every match outside `but`. */
  function MarkAll(roles: Roles, f: Filter, objects: map<nat, Object>, but: set<nat>): map<nat, Object> {
    map k | k in objects && (k in but || !Matches(roles, f, objects[k]) || objects[k].finalizer || objects[k].deleting)
      :: if k !in but && Matches(roles, f, objects[k]) then objects[k].(deleting := true) else objects[k]
  }

  /** reconcileDeletePlaybooks and reconcileDeletePlaybookDeployments: the list comes in any order; a delete call in
      `failing` returns an error and ends the loop, with the matches `but` not called yet. */
  method ReconcileDeleteObjects(c: Cluster, f: Filter, failing: set<nat>)
    returns (done: bool, ok: bool, ghost but: set<nat>)
    modifies c`objects
    ensures c.objects == MarkAll(c.roles, f, old(c.objects), but)
    ensures done == !AnyMatches(c.roles, f, old(c.objects))
    ensures ok ==> but == {}
    ensures !ok ==> exists k :: k in but && k in failing && k in old(c.objects)
    ensures done ==> ok && c.objects == old(c.objects)
    ensures c.objects.Keys <= old(c.objects.Keys)
    ensures forall k | k in old(c.objects) ::
              var o := old(c.objects)[k];
              if o.owned && o.kind == f.kind && (f.onlyInstall ==> o.role in c.roles.install) then
                ok ==> (k in c.objects <==> o.finalizer || o.deleting)
                       && (k in c.objects ==> c.objects[k] == o.(deleting := true))
              else k in c.objects && c.objects[k] == o
  {
    ghost var before := c.objects;
    var todo := c.objects.Keys;
    var found := false;
    while todo != {}
      invariant todo <= before.Keys
      invariant found <==> exists k :: k in before && k !in todo && Matches(c.roles, f, before[k])
      invariant c.objects == MarkAll(c.roles, f, before, todo)
      decreases todo
    {
      var k :| k in todo;
      ghost var rest := todo - {k};
      if Matches(c.roles, f, c.objects[k]) {
        found := true;
        if !c.objects[k].deleting {
          if k in failing {
            return false, false, todo;
          }
          c.objects := Mark(c.objects, k);
        }
      }
      assert c.objects == MarkAll(c.roles, f, before, rest);
      todo := todo - {k};
    }
    done, ok, but := !found, true, {};
    assert done ==> c.objects == before;
  }

  /** What the pass of the cleanup templates meets: a fresh name for an object it creates, how that call ends, and the
      place of the first template whose other calls fail or whose deployment has to be updated. */
  datatype Cleaning = Cleaning(k: nat, create: WriteResult, stop: nat)

  /** The pass of the cleanup templates from the i-th one on, and whether all of them are ready. */
  function CleanerPass(w: World, i: nat, e: Cleaning): (World, bool)
    decreases |w.roles.cleanup| - i
  {
    if i >= |w.roles.cleanup| then (w, true)
    else
      var made := MadeFrom(w, w.roles.cleanup[i]);
      if i == e.stop || |made| > 1 then (w, false)
      else if made == {} then
        (if e.create.Rejected? || e.k in w.objects then w
         else Add(w, e.k, w.roles.cleanup[i].kind, w.roles.cleanup[i].role, true), false)
      else if exists k :: k in made && w.objects[k].ready then CleanerPass(w, i + 1, e)
      else (w, false)
  }

  method ReconcileCleaner(c: Cluster, e: Cleaning) returns (ready: bool)
    modifies c`objects
    ensures (c.Value(), ready) == CleanerPass(old(c.Value()), 0, e)
  {
    for i := 0 to |c.roles.cleanup|
      invariant c.Value() == old(c.Value())
      invariant CleanerPass(old(c.Value()), 0, e) == CleanerPass(c.Value(), i, e)
    {
      var template := c.roles.cleanup[i];
      var made := MadeFrom(c.Value(), template);
      if i == e.stop || |made| > 1 {
        return false;
      }
      if |made| == 0 {
        if !e.create.Rejected? && e.k !in c.objects {
          c.objects := c.objects[e.k := Object(template.kind, template.role, true, false, false, false, false)];
        }
        return false;
      }
      if !exists k :: k in made && c.objects[k].ready {
        return false;
      }
    }
    return true;
  }

  /** What one undisturbed pass over a machine marked for deletion does. `but`: the matches that a failing delete call
      left out; `lost`: the status patch at the end is lost. */
  function DeletePass(w: World, waited: bool, e: Cleaning, lost: bool, but: set<nat>): World {
    if w.machine.None? then w
    else if !w.machine.value.hasRef then w.(machine := None)
    else if w.agent.None? then w
    else if AnyMatches(w.roles, Filter(PlaybookKind, true), w.objects)
    then w.(objects := MarkAll(w.roles, Filter(PlaybookKind, true), w.objects, but))
    else if AnyMatches(w.roles, Filter(DeploymentKind, true), w.objects)
    then w.(objects := MarkAll(w.roles, Filter(DeploymentKind, true), w.objects, but))
    else if w.machine.value.cleaned then AfterCleanup(w, lost, but)
    else if !w.agent.value.healthy then (if waited && w.agent.value.deleting then AfterCleanup(w, lost, but) else w)
    else if !CleanerPass(w, 0, e).1 then CleanerPass(w, 0, e).0
    else AfterCleanup(w, lost, but)
  }

  /** The rest of the pass, once the cleanup is over. */
  function AfterCleanup(w: World, lost: bool, but: set<nat>): World
    requires w.machine.Some? && w.agent.Some?
  {
    var v := if lost then w else w.(machine := Some(w.machine.value.(cleaned := true)));
    if AnyMatches(w.roles, Filter(PlaybookKind, false), w.objects)
    then v.(objects := MarkAll(w.roles, Filter(PlaybookKind, false), w.objects, but))
    else if AnyMatches(w.roles, Filter(DeploymentKind, false), w.objects)
    then v.(objects := MarkAll(w.roles, Filter(DeploymentKind, false), w.objects, but))
    else w.(agent := Some(w.agent.value.(labelled := false)), machine := None)
  }

  method ReconcileDeleteMachine(c: Cluster, waited: bool, e: Cleaning, lost: bool, failing: set<nat>)
    returns (ghost but: set<nat>)
    requires c.machine.Some? && c.machine.value.deleting && !c.machine.value.cleaning
    modifies c
    ensures c.Value() == DeletePass(old(c.Value()), waited, e, lost, but)
    ensures but != {} ==> exists k :: k in but && k in failing && k in old(c.objects)
  {
    but := {};
    if !c.machine.value.hasRef {
      c.machine := None;
      return;
    }
    if c.agent.None? {
      return;
    }
    var kfAgent := c.agent.value;
    var done, ok;
    done, ok, but := ReconcileDeleteObjects(c, Filter(PlaybookKind, true), failing);
    if !done {
      return;
    }
    assert c.Value() == old(c.Value());
    done, ok, but := ReconcileDeleteObjects(c, Filter(DeploymentKind, true), failing);
    if !done {
      return;
    }
    assert c.Value() == old(c.Value());
    if !c.machine.value.cleaned {
      if !kfAgent.healthy && !waited {
        return;
      }
      if !kfAgent.healthy && !kfAgent.deleting {
        return;
      }
      if kfAgent.healthy {
        var ready := ReconcileCleaner(c, e);
        if !ready {
          return;
        }
        CleanersReadyKeep(old(c.Value()), 0, e);
        assert c.Value() == old(c.Value());
      }
    }
    but := DeleteTheRest(c, lost, failing);
  }

  /** From the end of the cleanup on. */
  method DeleteTheRest(c: Cluster, lost: bool, failing: set<nat>) returns (ghost but: set<nat>)
    requires c.machine.Some? && c.agent.Some?
    modifies c
    ensures c.Value() == AfterCleanup(old(c.Value()), lost, but)
    ensures but != {} ==> exists k :: k in but && k in failing && k in old(c.objects)
  {
    var machine := c.machine.value.(cleaned := true);
    var done, ok;
    done, ok, but := ReconcileDeleteObjects(c, Filter(PlaybookKind, false), failing);
    if !done {
      if !lost { c.machine := Some(machine); }
      return;
    }
    done, ok, but := ReconcileDeleteObjects(c, Filter(DeploymentKind, false), failing);
    if !done {
      if !lost { c.machine := Some(machine); }
      return;
    }
    c.agent := Some(c.agent.value.(labelled := false));
    c.machine := None;
  }

  /** The agent's deletion pass, with a reachable API. A healthy agent's host is uninstalled first, over the agent. */
  method ReconcileDeleteAgent(c: Cluster, uninstalled: bool)
    requires c.agent.Some? && c.agent.value.deleting
    modifies c
    ensures c.Value() == Apply(old(c.Value()), AgentPass(uninstalled))
    ensures var a := old(c.agent.value);
            var held := a.labelled && old(c.machine).Some?;
            && (c.agent.None? <==> !held && old(c.objects) == map[] && (a.healthy ==> uninstalled))
            && (c.agent.Some? ==> c.agent.value == a) && c.objects == old(c.objects)
            && c.machine == if held then Some(old(c.machine).value.(deleting := true)) else old(c.machine)
  {
    if c.agent.value.labelled && c.machine.Some? {
      if !c.machine.value.deleting {
        c.machine := Some(c.machine.value.(deleting := true));
      }
      return;
    }
    var playbooks := set k | k in c.objects && c.objects[k].kind.PlaybookKind?;
    if |playbooks| > 0 {
      return;
    }
    var deployments := set k | k in c.objects && c.objects[k].kind.DeploymentKind?;
    if |deployments| > 0 {
      assert exists k :: k in deployments;
      return;
    }
    assert c.objects.Keys == playbooks + deployments;
    if c.agent.value.healthy {
      if !uninstalled {
        return;
      }
    }
    c.agent := None;
  }

  /** The deletion pass of a playbook or a deployment; `gone`: the external object is not found any more. */
  method ReconcileDeleteObject(c: Cluster, k: nat, waited: bool, gone: bool)
    requires k in c.objects && c.objects[k].deleting && c.objects[k].finalizer
    modifies c`objects
    ensures c.Value() == Apply(old(c.Value()), Finish(k, waited, gone))
    ensures k !in c.objects <==>
              !old(c.objects)[k].external
              || (c.agent.Some? && if c.agent.value.healthy then gone else waited && c.agent.value.deleting)
    ensures c.objects == old(c.objects) || c.objects == old(c.objects) - {k}
  {
    if !c.objects[k].external {
      c.objects := c.objects - {k};
      return;
    }
    if c.agent.None? {
      return;
    }
    var kfAgent := c.agent.value;
    if !kfAgent.healthy && !waited {
      return;
    }
    if !kfAgent.healthy && !kfAgent.deleting {
      return;
    }
    if !kfAgent.healthy {
      c.objects := c.objects - {k};
      return;
    }
    if !gone {
      return;
    }
    c.objects := c.objects - {k};
  }

  // ---- The machine's pass is a run of the cascade -----------------------------------------------

  /** Deleting one object never forbids deleting another. */
  lemma SweepAllows(w: World, k: nat, j: nat)
    requires k in w.objects && j in w.objects && k != j && MaySweep(w, w.objects[j])
    ensures var v := w.(objects := Mark(w.objects, k));
            j in v.objects && v.objects[j] == w.objects[j] && MaySweep(v, v.objects[j])
  {
  }

  /** All matches outside `but` can be deleted one by one. */
  lemma {:induction false} SweepsReach(w: World, f: Filter, todo: set<nat>) returns (steps: seq<Step>)
    requires Leaving(w) && todo <= w.objects.Keys
    requires forall k | k in todo :: Matches(w.roles, f, w.objects[k]) && MaySweep(w, w.objects[k])
    ensures Run(w, steps) == w.(objects := MarkAll(w.roles, f, w.objects, w.objects.Keys - todo))
    ensures AllByController(steps)
    decreases |todo|
  {
    if todo == {} {
      steps := [];
      assert MarkAll(w.roles, f, w.objects, w.objects.Keys) == w.objects;
    } else {
      var k :| k in todo;
      var v := Apply(w, Sweep(k));
      assert v == w.(objects := Mark(w.objects, k));
      forall j | j in todo - {k} ensures j in v.objects && v.objects[j] == w.objects[j] && MaySweep(v, v.objects[j]) {
        SweepAllows(w, k, j);
      }
      var rest := SweepsReach(v, f, todo - {k});
      steps := [Sweep(k)] + rest;
      assert steps[1..] == rest;
      assert MarkAll(v.roles, f, v.objects, v.objects.Keys - (todo - {k}))
          == MarkAll(w.roles, f, w.objects, w.objects.Keys - todo);
    }
  }

  lemma {:induction false} RunJoin(w: World, a: seq<Step>, b: seq<Step>)
    ensures Run(w, a + b) == Run(Run(w, a), b)
    decreases |a|
  {
    if a == [] {
      assert a + b == b;
    } else {
      assert (a + b)[1..] == a[1..] + b;
      RunJoin(Apply(w, a[0]), a[1..], b);
    }
  }

  /** The deletion loop over one filter, as steps; matches in `but` are left out. */
  lemma LoopIsARun(w: World, f: Filter, but: set<nat>) returns (steps: seq<Step>)
    requires Leaving(w)
    requires forall k | k in w.objects && Matches(w.roles, f, w.objects[k]) && !w.objects[k].deleting ::
               MaySweep(w, w.objects[k])
    ensures Run(w, steps) == w.(objects := MarkAll(w.roles, f, w.objects, but)) && AllByController(steps)
  {
    var todo := set k | k in w.objects && Matches(w.roles, f, w.objects[k]) && !w.objects[k].deleting && k !in but;
    steps := SweepsReach(w, f, todo);
    assert MarkAll(w.roles, f, w.objects, w.objects.Keys - todo) == MarkAll(w.roles, f, w.objects, but);
  }

  /** A pass of the cleanup templates that finds them ready leaves the world alone. */
  lemma {:induction false} CleanersReadyKeep(w: World, i: nat, e: Cleaning)
    ensures CleanerPass(w, i, e).1 ==>
              CleanerPass(w, i, e).0 == w && forall j | i <= j < |w.roles.cleanup| :: RoleReady(w, w.roles.cleanup[j])
    decreases |w.roles.cleanup| - i
  {
    if i < |w.roles.cleanup| {
      CleanersReadyKeep(w, i + 1, e);
    }
  }

  /** Otherwise it changes nothing or creates one cleanup object, which is the cascade's step: no install object is
      left and the templates before it are ready. */
  lemma {:induction false} CleanerPassIsAStep(w: World, i: nat, e: Cleaning) returns (steps: seq<Step>)
    requires Leaving(w) && NoInstall(w) && !Cleaned(w) && Healthy(w)
    requires i <= |w.roles.cleanup| && forall j | 0 <= j < i :: RoleReady(w, w.roles.cleanup[j])
    requires !CleanerPass(w, i, e).1
    ensures Run(w, steps) == CleanerPass(w, i, e).0
    ensures steps == [] || exists j :: 0 <= j < |w.roles.cleanup| && steps == [CreateCleaner(e.k, j)]
    decreases |w.roles.cleanup| - i
  {
    steps := [];
    var made := MadeFrom(w, w.roles.cleanup[i]);
    if i != e.stop && made == {} && !e.create.Rejected? && e.k !in w.objects {
      steps := [CreateCleaner(e.k, i)];
      RunOne(w, CreateCleaner(e.k, i));
    } else if i != e.stop && |made| <= 1 && made != {} && exists k :: k in made && w.objects[k].ready {
      steps := CleanerPassIsAStep(w, i + 1, e);
    }
  }

  /** Every undisturbed pass of the machine's controller, the pass of the cleanup templates included, is a run of the
      cascade's steps. */
  lemma DeletePassIsARun(w: World, waited: bool, e: Cleaning, lost: bool, but: set<nat>) returns (steps: seq<Step>)
    requires Inv(w) && w.machine.Some? && w.machine.value.deleting && !w.machine.value.cleaning
    ensures Run(w, steps) == DeletePass(w, waited, e, lost, but)
    ensures !lost ==> AllByController(steps)
  {
    steps := [];
    if !w.machine.value.hasRef {
      steps := [DropUnclaimed];
      RunOne(w, DropUnclaimed);
    } else if AnyMatches(w.roles, Filter(PlaybookKind, true), w.objects) {
      steps := LoopIsARun(w, Filter(PlaybookKind, true), but);
    } else if AnyMatches(w.roles, Filter(DeploymentKind, true), w.objects) {
      steps := LoopIsARun(w, Filter(DeploymentKind, true), but);
    } else if w.machine.value.cleaned {
      steps := AfterCleanupIsARun(w, [], lost, but);
    } else if !w.agent.value.healthy {
      if waited && w.agent.value.deleting {
        RunOne(w, ForceClean(waited));
        steps := AfterCleanupIsARun(w, [ForceClean(waited)], lost, but);
      }
    } else if CleanerPass(w, 0, e).1 {
      CleanersReadyKeep(w, 0, e);
      RunOne(w, CleanersReady);
      steps := AfterCleanupIsARun(w, [CleanersReady], lost, but);
    } else {
      steps := CleanerPassIsAStep(w, 0, e);
    }
  }

  lemma RunOne(w: World, s: Step)
    ensures Run(w, [s]) == Apply(w, s)
  {
    assert [s][1..] == [];
  }

  /** The deletion of what is left, or the release. */
  lemma RestIsARun(w: World, but: set<nat>) returns (steps: seq<Step>)
    requires Leaving(w) && Cleaned(w) && NoInstall(w)
    ensures AllByController(steps)
    ensures Run(w, steps) ==
            if AnyMatches(w.roles, Filter(PlaybookKind, false), w.objects)
            then w.(objects := MarkAll(w.roles, Filter(PlaybookKind, false), w.objects, but))
            else if AnyMatches(w.roles, Filter(DeploymentKind, false), w.objects)
            then w.(objects := MarkAll(w.roles, Filter(DeploymentKind, false), w.objects, but))
            else w.(agent := Some(w.agent.value.(labelled := false)), machine := None)
  {
    if AnyMatches(w.roles, Filter(PlaybookKind, false), w.objects) {
      steps := LoopIsARun(w, Filter(PlaybookKind, false), but);
    } else if AnyMatches(w.roles, Filter(DeploymentKind, false), w.objects) {
      steps := LoopIsARun(w, Filter(DeploymentKind, false), but);
    } else {
      assert NoOwned(w);
      steps := [Release];
      RunOne(w, Release);
    }
  }

  /** `first` ends the cleanup in memory, if the stored condition does not say that it is over. */
  lemma AfterCleanupIsARun(w: World, first: seq<Step>, lost: bool, but: set<nat>) returns (steps: seq<Step>)
    requires Leaving(w) && !w.machine.value.cleaning && NoInstall(w)
    requires Run(w, first) == WithMachine(w, w.machine.value.(cleaning := !w.machine.value.cleaned))
    ensures Run(w, steps) == AfterCleanup(w, lost, but)
    ensures !lost && AllByController(first) ==> AllByController(steps)
  {
    var w1 := Run(w, first);
    var middle := RestIsARun(w1, but);
    var w2 := Run(w1, middle);
    RunJoin(w, first, middle);
    steps := first + middle;
    if !w.machine.value.cleaned && w2.machine.Some? {
      RunJoin(w, steps, [EndPass(lost)]);
      RunOne(w2, EndPass(lost));
      steps := steps + [EndPass(lost)];
    }
  }
}

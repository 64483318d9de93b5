/**
 The reconcile methods of the management PlaybookDeployment controller, over the object whose status they fill in
 step by step and over the agent's API. `PassIsARun` ties an undisturbed pass to the steps of the machine.
 */
module ReplicationController {
  import opened Common
  import opened Defaulting
  import opened Replication
  import Rollout = AgentRollout

  datatype ManagedPhase = Empty | Provisioning | Synchronization | Completed | FailedPhase | Deleting

  class ManagedDeployment {
    const spec: Spec
    var externalName: Option<Name>
    var externalPhase: Phase
    var synced: Condition
    var lastSpecChecksum: Option<Spec>
    var failure: bool
    var observed: nat
    var deleting: bool
    var phase: ManagedPhase

    constructor (spec: Spec)
      ensures this.spec == spec && Value() == NEW_STATUS && !deleting && phase == Empty
    {
      this.spec := spec;
      externalName, externalPhase, synced, lastSpecChecksum, failure, observed :=
        None, Rollout.NoPhase, Unset, None, false, 0;
      deleting, phase := false, Empty;
    }

    function Value(): Status
      reads this
    {
      Status(externalName, externalPhase, synced, lastSpecChecksum, failure, observed)
    }

    method Fail()
      modifies this`failure, this`synced
      ensures failure && synced == IsFalse
    {
      failure, synced := true, IsFalse;
    }
  }

  class AgentApi {
    var externals: seq<External>

    constructor ()
      ensures externals == []
    {
      externals := [];
    }

    method Create(s: Spec, name: Name, r: WriteResult) returns (ok: bool)
      modifies this
      ensures externals == if r.Rejected? then old(externals) else CreateAt(old(externals), s, name)
      ensures ok <==> r.Applied?
    {
      if !r.Rejected? {
        externals := externals + [External(name, Rollout.New(ToExternal(s)))];
      }
      ok := r.Applied?;
    }

    method Patch(spec: DeploymentSpec, r: WriteResult) returns (ok: bool)
      requires |externals| == 1
      modifies this
      ensures externals == if r.Rejected? then old(externals)
                           else [old(externals)[0].(agent :=
                                        Rollout.Apply(old(externals)[0].agent, Rollout.Push(spec)))]
      ensures ok <==> r.Applied?
    {
      if !r.Rejected? {
        externals := [externals[0].(agent := Rollout.Apply(externals[0].agent, Rollout.Push(spec)))];
      }
      ok := r.Applied?;
    }
  }

  /** What an undisturbed pass leaves behind. */
  function PassResult(st: Status, s: Spec, externals: seq<External>, reach: Reach, listed: bool, name: Name,
                      r: WriteResult)
    : (Status, seq<External>)
    requires forall i | 0 <= i < |externals| :: externals[i].agent.specs != []
  {
    var begun := BeginPass(st, s, 1, reach);
    if begun.Committing? then (begun.status, externals) else ListedResult(st, s, externals, listed, name, r)
  }

  /** The part of the pass after the list call. */
  function ListedResult(st: Status, s: Spec, externals: seq<External>, listed: bool, name: Name, r: WriteResult)
    : (Status, seq<External>)
    requires forall i | 0 <= i < |externals| :: externals[i].agent.specs != []
  {
    match PlanAfterList(st, s, externals, listed)
    case Stop(st') => (st', externals)
    case DoCreate => (Created(st, s, name, r), if r.Rejected? then externals else CreateAt(externals, s, name))
    case DoPatch(st') => (Pushed(st', s, r), if r.Rejected? then externals else PatchAt(externals, s))
  }

  /** The status says that nothing is left to do for the spec. */
  predicate IsDone(st: Status, s: Spec) {
    st.synced == IsTrue && Rollout.Settled(st.externalPhase) && st.lastSpecChecksum == Some(s)
  }

  /** What makes a pass fail: an agent out of reach, a list that fails or is ambiguous, an external deployment that is
      missing or has another name, or a write that is not confirmed. */
  predicate MustFail(st: Status, s: Spec, externals: seq<External>, reach: Reach, listed: bool, r: WriteResult)
    requires forall i | 0 <= i < |externals| :: externals[i].agent.specs != []
  {
    || reach.AgentMissing? || reach.AgentUnhealthy? || reach.ClientFails?
    || (reach.Reachable? && !listed)
    || (reach.Reachable? && |externals| > 1)
    || (reach.Reachable? && |externals| == 0 && (st.externalName.Some? || !r.Applied?))
    || (reach.Reachable? && |externals| == 1
        && ((st.externalName.Some? && st.externalName.value != externals[0].name)
            || (!Agrees(externals[0].Current(), s) && !r.Applied?)))
  }

  /** What an undisturbed pass tells its user, for every status and everything it meets. With nothing left to do, or
      over a paused agent, it changes nothing. Otherwise it sets a failure exactly when it must fail; without one the
      agent holds the spec; Synced is true exactly if it held the spec before and has observed it; and the checksum
      becomes that of the spec exactly if the pass has written. */
  lemma PassTells(st: Status, s: Spec, externals: seq<External>, reach: Reach, listed: bool, name: Name, r: WriteResult)
    requires forall i | 0 <= i < |externals| :: externals[i].agent.specs != []
    ensures var (v, held) := PassResult(st, s, externals, reach, listed, name, r);
            var fails := MustFail(st, s, externals, reach, listed, r);
            var held0 := |externals| == 1 && Agrees(externals[0].Current(), s);
            if IsDone(st, s) || reach.AgentPaused? then v == st && held == externals
            else
              && (v.failure <==> fails) && v.observed == st.observed
              && (!fails ==> |held| == 1 && held[0].agent.specs != [] && Agrees(held[0].Current(), s)
                             && v.externalName == Some(held[0].name))
              && (v.synced == IsTrue <==>
                    !fails && held0 && externals[0].agent.observed == |externals[0].agent.specs|)
              && (v.synced == IsFalse <==> v.synced != IsTrue)
              && (v.synced == IsTrue ==> held == externals && v.externalPhase == externals[0].agent.phase)
              && v.lastSpecChecksum == (if !fails && !held0 then Some(s) else st.lastSpecChecksum)
              && (held == externals || (|externals| <= 1 && !held0 && !r.Rejected?))
  {
    if |externals| == 1 {
      var e := externals[0];
      CarriesMeans(e.Current(), s);
      OverlayMeans(e.Current(), s);
      assert externals == [e];
      if !Carries(e.Current(), s) { PushedIsStored(e, s); }
    }
    CreationMeans(s);
  }

  lemma PushedIsStored(e: External, s: Spec)
    requires e.agent.specs != [] && !Carries(e.Current(), s)
    ensures var f := PatchAt([e], s)[0];
            f.name == e.name && f.agent.specs != [] && f.Current() == Overlay(e.Current(), s)
  {
  }

  /** Overlays the spec on a copy of the external spec and patches if that changed anything. */
  method UpdateExternal(api: AgentApi, spec: Spec, r: WriteResult) returns (updated: bool, ok: bool)
    requires |api.externals| == 1 && api.externals[0].agent.specs != []
    modifies api
    ensures var e := old(api.externals)[0];
            if Carries(e.Current(), spec) then !updated && ok && api.externals == old(api.externals)
            else updated == ok == r.Applied?
                 && api.externals == if r.Rejected? then old(api.externals) else PatchAt(old(api.externals), spec)
    ensures |api.externals| == 1 && api.externals[0].agent.specs != []
    ensures var before, after := old(api.externals)[0].Current(), api.externals[0].Current();
            && api.externals[0].name == old(api.externals)[0].name
            && (ok ==>
                  && after.labels == spec.labels && after.annotations == spec.annotations && after.paused == spec.paused
                  && after.template.files == spec.files && after.template.entrypoint == spec.entrypoint
                  && after.template.policy == before.template.policy
                  && after.revisionHistoryLimit == if spec.revisionHistoryLimit.Some? then spec.revisionHistoryLimit
                                                   else before.revisionHistoryLimit)
            && (ok ==> (updated <==> after != before)) && (!ok ==> !updated)
            && (r.Applied? ==> ok)
  {
    var before := api.externals[0].Current();
    var labels, annotations, template := before.labels, before.annotations, before.template;
    var limit, paused := before.revisionHistoryLimit, before.paused;
    labels := spec.labels;
    annotations := spec.annotations;
    template := template.(files := spec.files);
    template := template.(entrypoint := spec.entrypoint);
    paused := spec.paused;
    if spec.revisionHistoryLimit.Some? {
      limit := spec.revisionHistoryLimit;
    }
    var after := DeploymentSpec(labels, annotations, template, limit, paused);
    if after != before {
      ok := api.Patch(after, r);
      updated := ok;
      return;
    }
    updated, ok := false, true;
  }

  method ReconcileNormal(pd: ManagedDeployment, api: AgentApi, reach: Reach, listed: bool, name: Name, r: WriteResult)
    requires forall i | 0 <= i < |api.externals| :: api.externals[i].agent.specs != []
    modifies api, pd`externalName, pd`externalPhase, pd`synced, pd`lastSpecChecksum, pd`failure
    ensures (pd.Value(), api.externals)
            == PassResult(old(pd.Value()), pd.spec, old(api.externals), reach, listed, name, r)
  {
    if !pd.externalPhase.NoPhase? && !pd.externalPhase.Progressing? && pd.synced == IsTrue
       && pd.lastSpecChecksum == Some(pd.spec)
    {
      return;
    }
    if reach == AgentMissing {
      pd.Fail();
      return;
    }
    if reach == AgentPaused {
      return;
    }
    if reach == AgentUnhealthy || reach == ClientFails {
      pd.Fail();
      return;
    }
    ReconcileListed(pd, api, listed, name, r);
  }

  /** The pass from the answer of the list call on. */
  method ReconcileListed(pd: ManagedDeployment, api: AgentApi, listed: bool, name: Name, r: WriteResult)
    requires forall i | 0 <= i < |api.externals| :: api.externals[i].agent.specs != []
    modifies api, pd`externalName, pd`externalPhase, pd`synced, pd`lastSpecChecksum, pd`failure
    ensures (pd.Value(), api.externals) == ListedResult(old(pd.Value()), pd.spec, old(api.externals), listed, name, r)
  {
    if !listed || |api.externals| > 1 {
      pd.Fail();
      return;
    }
    if |api.externals| == 0 {
      if pd.externalName.Some? {
        pd.Fail();
        return;
      }
      var ok := api.Create(pd.spec, name, r);
      if !ok {
        pd.Fail();
        return;
      }
      pd.lastSpecChecksum := Some(pd.spec);
      pd.externalName := Some(name);
      pd.failure := false;
      pd.synced := IsFalse;
      return;
    }
    var external := api.externals[0];
    if pd.externalName.Some? && pd.externalName != Some(external.name) {
      pd.Fail();
      return;
    }
    assert api.externals == [external];
    pd.externalName := Some(external.name);
    pd.externalPhase := external.agent.phase;
    var updated, ok := UpdateExternal(api, pd.spec, r);
    if !ok {
      pd.Fail();
      return;
    }
    pd.failure := false;
    if updated {
      pd.lastSpecChecksum := Some(pd.spec);
      pd.synced := IsFalse;
      return;
    }
    if external.agent.Generation() != external.agent.observed {
      pd.synced := IsFalse;
      return;
    }
    pd.synced := IsTrue;
  }

  method ReconcilePhase(pd: ManagedDeployment)
    modifies pd`phase
    ensures pd.phase == FailedPhase <==> pd.failure
    ensures pd.phase == Deleting <==> !pd.failure && pd.deleting
    ensures pd.phase == Completed <==>
              !pd.failure && !pd.deleting && pd.synced == IsTrue && Rollout.Settled(pd.externalPhase)
    ensures pd.phase == Provisioning <==>
              !pd.failure && !pd.deleting && !(pd.synced == IsTrue && Rollout.Settled(pd.externalPhase))
              && old(pd.phase) == Empty
    ensures pd.phase != Empty
  {
    if pd.failure {
      pd.phase := FailedPhase;
      return;
    }
    if pd.deleting {
      pd.phase := Deleting;
      return;
    }
    if !pd.externalPhase.NoPhase? && !pd.externalPhase.Progressing? && pd.synced == IsTrue {
      pd.phase := Completed;
      return;
    }
    if pd.phase == Empty {
      pd.phase := Provisioning;
      return;
    }
    pd.phase := Synchronization;
  }

  /** A pass with its calls in a row is the machine's run of the same calls: the steps that do not apply are skipped. */
  lemma PassIsARun(w: World, reach: Reach, listed: bool, id: nat, r: WriteResult)
    requires Core(w) && w.pc.Idle?
    requires var s := Last(w.specs); forall e | e in Held(w.stores, s.agentRef) :: e.name != Name(s.agentRef, id)
    ensures var v := Run(w, [Begin(reach), Find(listed), Create(id, r), Patch(r), Commit(false)]);
            var s := Last(w.specs);
            var (st, held) :=
              PassResult(w.status, s, Held(w.stores, s.agentRef), reach, listed, Name(s.agentRef, id), r);
            && v.status == st.(observed := w.Generation()) && v.specs == w.specs && v.pc.Idle?
            && Held(v.stores, s.agentRef) == held
            && forall a | a != s.agentRef :: Held(v.stores, a) == Held(w.stores, a)
  {
    var steps := [Begin(reach), Find(listed), Create(id, r), Patch(r), Commit(false)];
    FiveSteps(w, steps);
    BeginAndFind(w, reach, listed);
    WriteAndCommit(w, Apply(Apply(w, steps[0]), steps[1]), reach, listed, id, r);
  }

  /** The rest of the pass, from what it has found. */
  lemma WriteAndCommit(w: World, u: World, reach: Reach, listed: bool, id: nat, r: WriteResult)
    requires Core(w) && w.pc.Idle? && AfterFind(w, u, reach, listed)
    requires var s := Last(w.specs); forall e | e in Held(w.stores, s.agentRef) :: e.name != Name(s.agentRef, id)
    requires Reads(u) && Reads(Apply(u, Create(id, r))) && Reads(Apply(Apply(u, Create(id, r)), Patch(r)))
    ensures var v := Finished(u, id, r);
            var s := Last(w.specs);
            var (st, held) :=
              PassResult(w.status, s, Held(w.stores, s.agentRef), reach, listed, Name(s.agentRef, id), r);
            && v.status == st.(observed := w.Generation()) && v.specs == w.specs && v.pc.Idle?
            && Held(v.stores, s.agentRef) == held
            && forall a | a != s.agentRef :: Held(v.stores, a) == Held(w.stores, a)
  {
    if u.pc.Creating? {
      CreateAndCommit(u, id, r);
    } else if u.pc.Patching? {
      PatchAndCommit(u, id, r);
    } else {
      CommitOnly(u, id, r);
    }
  }

  lemma FiveSteps(w: World, steps: seq<Step>)
    requires Core(w) && |steps| == 5
    ensures var w1 := Apply(w, steps[0]);
            Core(w1) && var w2 := Apply(w1, steps[1]);
            Core(w2) && var w3 := Apply(w2, steps[2]);
            Core(w3) && var w4 := Apply(w3, steps[3]);
            Core(w4) && Run(w, steps) == Apply(w4, steps[4])
  {
    var w1 := Apply(w, steps[0]);
    StepKeepsCore(w, steps[0]);
    var w2 := Apply(w1, steps[1]);
    StepKeepsCore(w1, steps[1]);
    var w3 := Apply(w2, steps[2]);
    StepKeepsCore(w2, steps[2]);
    var w4 := Apply(w3, steps[3]);
    StepKeepsCore(w3, steps[3]);
    var w5 := Apply(w4, steps[4]);
    StepKeepsCore(w4, steps[4]);
    assert Run(w4, steps[4..]) == Run(w5, steps[4..][1..]) && steps[4..][1..] == [];
    assert Run(w3, steps[3..]) == Run(w4, steps[3..][1..]) && steps[3..][1..] == steps[4..];
    assert Run(w2, steps[2..]) == Run(w3, steps[2..][1..]) && steps[2..][1..] == steps[3..];
    assert Run(w1, steps[1..]) == Run(w2, steps[1..][1..]) && steps[1..][1..] == steps[2..];
  }

  /** What a pass knows after its list call. */
  predicate AfterFind(w: World, v: World, reach: Reach, listed: bool)
    requires Reads(w)
  {
    var s := Last(w.specs);
    && v.(pc := Idle) == w.(pc := Idle) && !v.pc.Idle? && v.pc.generation == w.Generation()
    && var begun := BeginPass(w.status, s, 1, reach);
       if begun.Committing? then v.pc.Committing? && v.pc.status == begun.status
       else
         var plan := PlanAfterList(w.status, s, Held(w.stores, s.agentRef), listed);
         && (plan.Stop? ==> v.pc.Committing? && v.pc.status == plan.status)
         && (plan.DoCreate? ==> v.pc.Creating?)
         && (plan.DoPatch? ==> v.pc == Patching(w.Generation(), plan.status))
  }

  lemma BeginAndFind(w: World, reach: Reach, listed: bool)
    requires Core(w) && w.pc.Idle?
    ensures AfterFind(w, Apply(Apply(w, Begin(reach)), Find(listed)), reach, listed)
  {
    var begun := BeginPass(w.status, Last(w.specs), w.Generation(), reach);
    assert Apply(w, Begin(reach)) == w.(pc := begun);
    if begun.Began? {
      FindIsPlanned(w.(pc := begun), listed);
    }
  }

  lemma FindIsPlanned(w: World, listed: bool)
    requires Reads(w) && w.pc == Began(w.Generation())
    ensures var plan := PlanAfterList(w.status, Last(w.specs), Held(w.stores, Last(w.specs).agentRef), listed);
            var v := Apply(w, Find(listed));
            && v == w.(pc := v.pc) && !v.pc.Idle? && v.pc.generation == w.Generation()
            && (plan.Stop? ==> v.pc.Committing? && v.pc.status == plan.status)
            && (plan.DoCreate? ==> v.pc.Creating?)
            && (plan.DoPatch? ==> v.pc == Patching(w.Generation(), plan.status))
  {
  }

  /** The last three calls, of which at most one writes. */
  function Finished(w: World, id: nat, r: WriteResult): World
    requires Reads(w) && Reads(Apply(w, Create(id, r))) && Reads(Apply(Apply(w, Create(id, r)), Patch(r)))
  {
    Apply(Apply(Apply(w, Create(id, r)), Patch(r)), Commit(false))
  }

  lemma CreateAndCommit(w: World, id: nat, r: WriteResult)
    requires Reads(w) && w.pc.Creating? && w.pc.generation == w.Generation()
    requires forall e | e in Held(w.stores, Last(w.specs).agentRef) :: e.name != Name(Last(w.specs).agentRef, id)
    requires Reads(Apply(w, Create(id, r))) && Reads(Apply(Apply(w, Create(id, r)), Patch(r)))
    ensures var v, s := Finished(w, id, r), Last(w.specs);
            var held, name := Held(w.stores, s.agentRef), Name(s.agentRef, id);
            && v.specs == w.specs && v.pc.Idle?
            && v.status == Created(w.status, s, name, r).(observed := w.Generation())
            && v.stores == if r.Rejected? then w.stores else w.stores[s.agentRef := CreateAt(held, s, name)]
  {
    var s := Last(w.specs);
    var v := Apply(w, Create(id, r));
    assert SpecRead(w) == s && v.pc.Committing? && v.specs == w.specs && v.pc.generation == w.Generation();
    assert v.pc.status == Created(w.status, s, Name(s.agentRef, id), r);
    CommitOnly(v, id, r);
  }

  lemma PatchAndCommit(w: World, id: nat, r: WriteResult)
    requires Reads(w) && w.pc.Patching? && w.pc.generation == w.Generation()
    requires |Held(w.stores, Last(w.specs).agentRef)| == 1
    requires Reads(Apply(w, Create(id, r))) && Reads(Apply(Apply(w, Create(id, r)), Patch(r)))
    ensures var v, s := Finished(w, id, r), Last(w.specs);
            var held := Held(w.stores, s.agentRef);
            && v.specs == w.specs && v.pc.Idle?
            && v.status == Pushed(w.pc.status, s, r).(observed := w.Generation())
            && v.stores == if r.Rejected? then w.stores else w.stores[s.agentRef := PatchAt(held, s)]
  {
  }

  lemma CommitOnly(w: World, id: nat, r: WriteResult)
    requires Reads(w) && w.pc.Committing? && w.pc.generation == w.Generation()
    requires Reads(Apply(w, Create(id, r))) && Reads(Apply(Apply(w, Create(id, r)), Patch(r)))
    ensures var v := Finished(w, id, r);
            && v.specs == w.specs && v.pc.Idle? && v.stores == w.stores
            && v.status == w.pc.status.(observed := w.Generation())
  {
  }
}

/** The reconcile methods of the management Playbook controller, over the object they change in place. */
module RemotePlaybookController {
  import opened Common
  import opened Defaulting
  import opened RemotePlaybook
  import Rollout = AgentRollout
  import Retry = PlaybookRetry

  datatype ConditionType = Synchronized | Execution | FailedType

  class ManagedPlaybook {
    const spec: Spec
    const generation: nat
    var deleting: bool
    var externalName: Option<Name>
    var externalPhase: Retry.Phase
    var conditions: map<ConditionType, Condition>
    var failure: bool
    var phase: Phase

    constructor (spec: Spec, generation: nat)
      ensures this.spec == spec && this.generation == generation && Value() == NEW_STATUS && !deleting
    {
      this.spec, this.generation, deleting := spec, generation, false;
      externalName, externalPhase, conditions, failure, phase := None, Retry.NoPhase, map[], false, Empty;
    }

    function Get(t: ConditionType): Condition
      reads this
    {
      if t in conditions then conditions[t] else Unset
    }

    function Value(): Status
      reads this
    {
      Status(externalName, externalPhase, Get(Synchronized), Get(Execution), Get(FailedType), failure, phase)
    }

    method Fail()
      modifies this`failure, this`conditions
      ensures failure && conditions == old(conditions)[Synchronized := IsFalse]
    {
      failure := true;
      conditions := conditions[Synchronized := IsFalse];
    }
  }

  class AgentApi {
    var externals: seq<External>

    constructor ()
      ensures externals == []
    {
      externals := [];
    }

    method Create(s: Spec, name: Name, now: int, generation: nat, r: WriteResult) returns (ok: bool)
      modifies this
      ensures externals == if r.Rejected? then old(externals) else CreateAt(old(externals), s, name, now, generation)
      ensures ok <==> r.Applied?
    {
      if !r.Rejected? {
        externals := CreateAt(externals, s, name, now, generation);
      }
      ok := r.Applied?;
    }
  }

  /** The external playbook's conditions as its API lists them: those that are set, one entry a type. */
  function ConditionList(s: Retry.Status): seq<(ConditionType, Condition)> {
    (if s.execution == Unset then [] else [(Execution, s.execution)])
    + (if s.failure == Unset then [] else [(FailedType, s.failure)])
  }

  /** Later entries win over earlier ones, and all of them over what was there. */
  function Merge(m: map<ConditionType, Condition>, list: seq<(ConditionType, Condition)>)
    : map<ConditionType, Condition>
  {
    if list == [] then m else Merge(m, list[..|list| - 1])[Last(list).0 := Last(list).1]
  }

  method AppendExternalConditions(pb: ManagedPlaybook, list: seq<(ConditionType, Condition)>)
    modifies pb`conditions
    ensures pb.conditions == Merge(old(pb.conditions), list)
  {
    for i := 0 to |list|
      invariant pb.conditions == Merge(old(pb.conditions), list[..i])
    {
      assert list[..i + 1][..i] == list[..i];
      pb.conditions := pb.conditions[list[i].0 := list[i].1];
    }
    assert list[..|list|] == list;
  }

  lemma MergeOfConditions(m: map<ConditionType, Condition>, s: Retry.Status)
    ensures Merge(m, ConditionList(s))
            == m + (if s.execution == Unset then map[] else map[Execution := s.execution])
                 + (if s.failure == Unset then map[] else map[FailedType := s.failure])
  {
    var a := if s.execution == Unset then [] else [(Execution, s.execution)];
    var after := Merge(m, a);
    assert after == m + (if s.execution == Unset then map[] else map[Execution := s.execution]) by {
      if a == [] { assert m + map[] == m; } else { MergeOfMore(m, [], a[0]); }
    }
    if s.failure == Unset {
      assert ConditionList(s) == a && after + map[] == after;
    } else {
      assert ConditionList(s) == a + [(FailedType, s.failure)];
      MergeOfMore(m, a, (FailedType, s.failure));
    }
  }

  lemma MergeOfMore(m: map<ConditionType, Condition>, list: seq<(ConditionType, Condition)>,
                    c: (ConditionType, Condition))
    ensures Merge(m, list + [c]) == Merge(m, list) + map[c.0 := c.1]
  {
    assert (list + [c])[..|list|] == list;
  }

  /** The status and the agent's playbooks after an undisturbed pass, before the deferred phase. */
  function PassResult(st: Status, s: Spec, generation: nat, externals: seq<External>, reach: Reach, listed: bool,
                      name: Name, now: int, r: WriteResult): (Status, seq<External>)
  {
    var begun := BeginPass(st, generation, reach);
    if begun.Committing? then (begun.status, externals)
    else
      match PlanAfterList(st, externals, listed)
      case Stop(st') => (st', externals)
      case DoCreate =>
        (Created(st, name, r), if r.Rejected? then externals else CreateAt(externals, s, name, now, generation))
  }

  /** What makes a pass fail: an agent out of reach, a list that fails or is ambiguous, an external playbook that is
      missing or has another name, or a creation that is not confirmed. */
  predicate MustFail(st: Status, externals: seq<External>, reach: Reach, listed: bool, r: WriteResult) {
    || reach.AgentMissing? || reach.AgentUnhealthy? || reach.ClientFails?
    || (reach.Reachable? && (!listed || |externals| > 1))
    || (reach.Reachable? && |externals| == 0 && (st.externalName.Some? || !r.Applied?))
    || (reach.Reachable? && |externals| == 1
        && st.externalName.Some? && st.externalName.value != externals[0].name)
  }

  /** What an undisturbed pass tells its user, for every status and everything it meets: nothing new once the playbook
      has come to an end, or over a paused agent; otherwise a failure exactly when it must fail, and without one the
      name, phase and conditions of the agent's one playbook, which it creates exactly when there is none. */
  lemma PassTells(st: Status, s: Spec, g: nat, externals: seq<External>, reach: Reach, listed: bool, name: Name,
                  now: int, r: WriteResult)
    ensures var (v, held) := PassResult(st, s, g, externals, reach, listed, name, now, r);
            var fails := MustFail(st, externals, reach, listed, r);
            if st.execution == IsTrue || st.failed == IsTrue || reach.AgentPaused? then v == st && held == externals
            else
              && (v.failure <==> fails) && (v.synced == IsTrue <==> !fails) && (v.synced == IsFalse <==> fails)
              && v.phase == st.phase
              && (fails ==> v.externalName == st.externalName && v.externalPhase == st.externalPhase
                            && v.execution == st.execution && v.failed == st.failed)
              && (!fails ==> |held| == 1 && v.externalName == Some(held[0].name)
                             && v.externalPhase == held[0].playbook.status.phase)
              && (!fails && externals != [] ==>
                    var p := externals[0].playbook.status;
                    && held == externals
                    && v.execution == (if p.execution == Unset then st.execution else p.execution)
                    && v.failed == (if p.failure == Unset then st.failed else p.failure))
              && (!fails && externals == [] ==>
                    var p := held[0].playbook;
                    && p.spec == PlaybookSpec(Some(Policy(Some(TEN_MINUTES), Some(3))), s.files, s.entrypoint)
                    && p.status == Retry.INITIAL && p.created == now
                    && held[0].name == name && v.execution == st.execution && v.failed == st.failed)
              && (fails ==> held == externals || (externals == [] && r.ReplyLost?))
  {
  }

  method ReconcileNormal(pb: ManagedPlaybook, api: AgentApi, reach: Reach, listed: bool, name: Name,
                         now: int, r: WriteResult)
    modifies api, pb`externalName, pb`externalPhase, pb`conditions, pb`failure
    ensures (pb.Value(), api.externals)
            == PassResult(old(pb.Value()), pb.spec, pb.generation, old(api.externals), reach, listed, name, now, r)
  {
    if pb.Get(Execution) == IsTrue || pb.Get(FailedType) == IsTrue {
      return;
    }
    if reach == AgentMissing {
      pb.Fail();
      return;
    }
    if reach == AgentPaused {
      return;
    }
    if reach == AgentUnhealthy || reach == ClientFails {
      pb.Fail();
      return;
    }
    if !listed || |api.externals| > 1 {
      pb.Fail();
      return;
    }
    if |api.externals| == 0 {
      if pb.externalName.Some? {
        pb.Fail();
        return;
      }
      var ok := api.Create(pb.spec, name, now, pb.generation, r);
      if !ok {
        pb.Fail();
        return;
      }
      pb.externalName := Some(name);
      pb.externalPhase := Retry.NoPhase;
      pb.failure := false;
      pb.conditions := pb.conditions[Synchronized := IsTrue];
      return;
    }
    var external := api.externals[0];
    if pb.externalName.Some? && pb.externalName != Some(external.name) {
      pb.Fail();
      return;
    }
    CopyExternal(pb, external);
  }

  method CopyExternal(pb: ManagedPlaybook, external: External)
    modifies pb`externalName, pb`externalPhase, pb`conditions, pb`failure
    ensures pb.Value() == Copy(old(pb.Value()), external)
    ensures var s := external.playbook.status;
            && pb.externalName == Some(external.name) && pb.externalPhase == s.phase && !pb.failure
            && pb.Get(Synchronized) == IsTrue
            && pb.Get(Execution) == (if s.execution == Unset then old(pb.Get(Execution)) else s.execution)
            && pb.Get(FailedType) == (if s.failure == Unset then old(pb.Get(FailedType)) else s.failure)
  {
    pb.failure := false;
    pb.externalName := Some(external.name);
    pb.externalPhase := external.playbook.status.phase;
    MergeOfConditions(pb.conditions, external.playbook.status);
    AppendExternalConditions(pb, ConditionList(external.playbook.status));
    pb.conditions := pb.conditions[Synchronized := IsTrue];
  }

  method ReconcilePhase(pb: ManagedPlaybook)
    modifies pb`phase, pb`failure
    ensures pb.Value() == if pb.deleting && !old(pb.failure) then old(pb.Value()).(phase := Deleting)
                          else WithPhase(old(pb.Value()))
    ensures var failed, executed := pb.Get(FailedType) == IsTrue, pb.Get(Execution) == IsTrue;
            && pb.conditions == old(pb.conditions)
            && (pb.failure <==> old(pb.failure) || (!pb.deleting && failed))
            && (pb.phase == FailedPhase <==> pb.failure)
            && (pb.phase == Deleting <==> !pb.failure && pb.deleting)
            && (pb.phase == Completed <==> !pb.failure && !pb.deleting && executed)
            && (pb.phase == Synchronization <==>
                  !pb.failure && !pb.deleting && !executed && pb.Get(Synchronized) == IsTrue)
            && (pb.phase == Provisioning <==>
                  !pb.failure && !pb.deleting && !executed && pb.Get(Synchronized) != IsTrue && old(pb.phase) == Empty)
  {
    if pb.failure {
      pb.phase := FailedPhase;
      return;
    }
    if pb.deleting {
      pb.phase := Deleting;
      return;
    }
    if pb.Get(FailedType) == IsTrue {
      pb.phase := FailedPhase;
      pb.failure := true;
      return;
    }
    if pb.Get(Execution) == IsTrue {
      pb.phase := Completed;
      return;
    }
    if pb.Get(Synchronized) == IsTrue {
      pb.phase := Synchronization;
      return;
    }
    if pb.phase == Empty {
      pb.phase := Provisioning;
      return;
    }
    pb.phase := UnknownPhase;
  }

  /** A pass with its calls in a row, its status patch stored or lost, is the machine's run of the same calls. */
  lemma PassIsARun(w: World, reach: Reach, listed: bool, id: nat, now: int, r: WriteResult, lost: bool)
    requires Inv(w) && w.pc.Idle?
    requires var s := Last(w.specs); forall e | e in Held(w.stores, s.agentRef) :: e.name != Name(s.agentRef, id)
    ensures var v := Run(w, [Begin(reach), Find(listed), Create(id, now, r), Commit(lost)]);
            var s := Last(w.specs);
            var (st, held) :=
              PassResult(w.status, s, |w.specs|, Held(w.stores, s.agentRef), reach, listed,
                         Name(s.agentRef, id), now, r);
            && v.specs == w.specs && v.status == (if lost then w.status else WithPhase(st)) && v.pc.Idle?
            && Held(v.stores, s.agentRef) == held
            && forall a | a != s.agentRef :: Held(v.stores, a) == Held(w.stores, a)
  {
    var w1 := Apply(w, Begin(reach));
    BeginAndFind(w, reach, listed);
    var w2 := Apply(w1, Find(listed));
    var w3 := Apply(w2, Create(id, now, r));
    FourSteps(w, Begin(reach), Find(listed), Create(id, now, r), Commit(lost), w1, w2, w3);
    CreateAndCommit(w2, id, now, r, lost);
  }

  /** The rest of the pass: a creation, unless it is about to commit already. */
  lemma CreateAndCommit(w: World, id: nat, now: int, r: WriteResult, lost: bool)
    requires Reads(w) && (w.pc.Committing? || w.pc == Creating(|w.specs|))
    requires var s := Last(w.specs); forall e | e in Held(w.stores, s.agentRef) :: e.name != Name(s.agentRef, id)
    ensures var w1 := Apply(w, Create(id, now, r));
            Reads(w1) && var v := Apply(w1, Commit(lost));
            var s := Last(w.specs);
            var held, name := Held(w.stores, s.agentRef), Name(s.agentRef, id);
            && v.specs == w.specs && v.pc.Idle?
            && v.status == (if lost then w.status
                            else WithPhase(if w.pc.Committing? then w.pc.status else Created(w.status, name, r)))
            && Held(v.stores, s.agentRef) == (if w.pc.Committing? || r.Rejected? then held
                                              else CreateAt(held, s, name, now, |w.specs|))
            && forall a | a != s.agentRef :: Held(v.stores, a) == Held(w.stores, a)
  {
  }

  lemma BeginAndFind(w: World, reach: Reach, listed: bool)
    requires Reads(w) && w.pc.Idle?
    ensures var w1 := Apply(w, Begin(reach));
            Reads(w1) && var v := Apply(w1, Find(listed));
            Reads(v) && v.(pc := Idle) == w
            && var begun := BeginPass(w.status, |w.specs|, reach);
               var plan := PlanAfterList(w.status, Held(w.stores, Last(w.specs).agentRef), listed);
               v.pc == if begun.Committing? then begun
                       else if plan.Stop? then Committing(plan.status)
                       else Creating(|w.specs|)
  {
  }
}

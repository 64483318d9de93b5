/** Where the passes of TemplateSequencing lead: how many it takes, and when a pass is ready too early. */
module TemplateRollout {
  import opened Common
  import opened ObjectStatus
  import opened TemplateSequencing

  // ---- Passes without faults end ----------------------------------------------------------------

  predicate Numbered(s: State) { forall i | i in s.objects :: i < s.next }

  ghost predicate AtMostOneEach(objects: map<Id, Object>, refs: seq<Reference>) {
    forall r | r in refs :: |Found(objects, r)| <= 1
  }

  predicate Distinct(refs: seq<Reference>) { forall i, j | 0 <= i < j < |refs| :: refs[i].role != refs[j].role }

  predicate Faultless(refs: seq<Reference>, calls: Role -> Call) {
    forall r | r in refs ::
      !r.ref.kind.OtherKind? && calls(r.role).list && calls(r.role).template.Some? && calls(r.role).write.Applied?
  }

  predicate AllDone(objects: map<Id, Object>) { forall i | i in objects :: Done(objects[i]) }

  /** What a reference still needs: its object, or an update of it. */
  ghost function Need(objects: map<Id, Object>, ref: Reference, vars: Vars, call: Call): nat {
    if |Found(objects, ref)| == 0 then 2
    else if |Found(objects, ref)| == 1 && call.template.Some?
         && objects[TheOne(objects, ref)].spec != Wanted(objects[TheOne(objects, ref)], call.template.value, vars)
    then 1
    else 0
  }

  ghost function Needs(objects: map<Id, Object>, refs: seq<Reference>, vars: Vars, calls: Role -> Call): (n: nat)
    ensures n <= 2 * |refs|
  {
    if refs == [] then 0
    else Need(objects, refs[0], vars, calls(refs[0].role)) + Needs(objects, refs[1..], vars, calls)
  }

  lemma HandleLeavesOtherObjects(s: State, ref: Reference, vars: Vars, call: Call, i: Id)
    requires Numbered(s)
    ensures var v := Handle(s, ref, vars, call).0;
            && (i in s.objects && s.objects[i].role != ref.role ==> i in v.objects && v.objects[i] == s.objects[i])
            && (i in v.objects && v.objects[i].role != ref.role ==> i in s.objects && v.objects[i] == s.objects[i])
  {
    if |Found(s.objects, ref)| == 1 {
      assert TheOne(s.objects, ref) in Found(s.objects, ref);
    }
  }

  lemma HandleLeavesOtherRoles(s: State, ref: Reference, vars: Vars, call: Call, other: Reference)
    requires Numbered(s) && other.role != ref.role
    ensures var v := Handle(s, ref, vars, call).0;
            && Found(v.objects, other) == Found(s.objects, other)
            && forall i | i in Found(s.objects, other) :: v.objects[i] == s.objects[i]
  {
    var v := Handle(s, ref, vars, call).0;
    forall i ensures i in Found(v.objects, other) <==> i in Found(s.objects, other) {
      HandleLeavesOtherObjects(s, ref, vars, call, i);
    }
    forall i | i in Found(s.objects, other) ensures v.objects[i] == s.objects[i] {
      HandleLeavesOtherObjects(s, ref, vars, call, i);
    }
  }

  lemma {:induction false} HandleLeavesOtherNeeds(s: State, ref: Reference, vars: Vars, call: Call,
                                                  others: seq<Reference>, calls: Role -> Call)
    requires Numbered(s) && forall r | r in others :: r.role != ref.role
    ensures Needs(Handle(s, ref, vars, call).0.objects, others, vars, calls) == Needs(s.objects, others, vars, calls)
  {
    if others != [] {
      var v, other := Handle(s, ref, vars, call).0, others[0];
      HandleLeavesOtherRoles(s, ref, vars, call, other);
      HandleLeavesOtherNeeds(s, ref, vars, call, others[1..], calls);
      if |Found(s.objects, other)| == 1 {
        assert TheOne(s.objects, other) in Found(s.objects, other);
        assert {TheOne(v.objects, other)} == {TheOne(s.objects, other)};
        assert TheOne(v.objects, other) == TheOne(s.objects, other) by {
          assert TheOne(v.objects, other) in {TheOne(s.objects, other)};
        }
      }
    }
  }

  /** Without faults, a reference that is not ready although everything is done gets what it needs. */
  lemma HandleMeetsANeed(s: State, ref: Reference, vars: Vars, call: Call)
    requires Numbered(s) && |Found(s.objects, ref)| <= 1 && AllDone(s.objects)
    requires !ref.ref.kind.OtherKind? && call.list && call.template.Some? && call.write.Applied?
    ensures var (v, verdict) := Handle(s, ref, vars, call);
            && Numbered(v) && |Found(v.objects, ref)| == 1
            && if verdict.Ready? then v.objects == s.objects && Need(v.objects, ref, vars, call) == 0
               else Need(v.objects, ref, vars, call) < Need(s.objects, ref, vars, call)
  {
    var v := Handle(s, ref, vars, call).0;
    if |Found(s.objects, ref)| == 0 {
      assert forall i | i in s.objects :: i !in Found(s.objects, ref);
      assert Found(v.objects, ref) == {s.next};
    } else {
      var id := TheOne(s.objects, ref);
      assert id in Found(s.objects, ref);
      assert forall i | i in s.objects && i != id :: i !in Found(s.objects, ref);
      assert Found(v.objects, ref) == {id};
      assert TheOne(v.objects, ref) == id by { assert TheOne(v.objects, ref) in {id}; }
    }
  }

  lemma {:induction false} PassMeetsANeed(s: State, refs: seq<Reference>, vars: Vars, calls: Role -> Call)
    requires Numbered(s) && Distinct(refs) && Faultless(refs, calls) && AtMostOneEach(s.objects, refs)
             && AllDone(s.objects)
    ensures var (v, verdict) := PassOver(s, refs, vars, calls);
            && Numbered(v) && AtMostOneEach(v.objects, refs)
            && (!verdict.Ready? ==> Needs(v.objects, refs, vars, calls) < Needs(s.objects, refs, vars, calls))
    decreases |refs|
  {
    if refs != [] {
      var ref, rest := refs[0], refs[1..];
      var (s1, verdict) := Handle(s, ref, vars, calls(ref.role));
      assert ref in refs && forall r | r in rest :: r in refs;
      assert forall r | r in rest :: r.role != ref.role;
      HandleMeetsANeed(s, ref, vars, calls(ref.role));
      HandleLeavesOtherNeeds(s, ref, vars, calls(ref.role), rest, calls);
      if verdict.Ready? {
        PassMeetsANeed(s1, rest, vars, calls);
        var v := PassOver(s1, rest, vars, calls).0;
        PassLeavesOtherRoles(s1, rest, vars, calls, ref);
      } else {
        forall r | r in rest ensures |Found(s1.objects, r)| <= 1 {
          HandleLeavesOtherRoles(s, ref, vars, calls(ref.role), r);
        }
      }
    }
  }

  lemma {:induction false} PassLeavesOtherRoles(s: State, refs: seq<Reference>, vars: Vars, calls: Role -> Call,
                                                other: Reference)
    requires Numbered(s) && forall r | r in refs :: r.role != other.role
    ensures var v := PassOver(s, refs, vars, calls).0;
            && Found(v.objects, other) == Found(s.objects, other)
            && Need(v.objects, other, vars, calls(other.role)) == Need(s.objects, other, vars, calls(other.role))
    decreases |refs|
  {
    if refs != [] {
      var (s1, verdict) := Handle(s, refs[0], vars, calls(refs[0].role));
      HandleLeavesOtherRoles(s, refs[0], vars, calls(refs[0].role), other);
      HandleLeavesOtherNeeds(s, refs[0], vars, calls(refs[0].role), [other], calls);
      assert Needs(s.objects, [other], vars, calls) == Need(s.objects, other, vars, calls(other.role));
      assert Needs(s1.objects, [other], vars, calls) == Need(s1.objects, other, vars, calls(other.role));
      if verdict.Ready? {
        PassLeavesOtherRoles(s1, refs[1..], vars, calls, other);
      }
    }
  }

  /** The moves of an object's own controller that end well: read, push and record, or copy; read again and confirm. */
  function Settled(o: Object): Object {
    var read := Own(Own(o, Drop), Look);
    if o.kind.PlaybookTemplate? then Own(read, Copy(IsTrue, "Succeeded"))
    else Own(Own(Own(Own(read, Push(true)), Record("")), Look), Confirm(IsTrue, "Succeeded"))
  }

  lemma SettledIsDone(o: Object)
    ensures var p := Settled(o); Done(p) && p.kind == o.kind && p.role == o.role && p.spec == o.spec
  {
  }

  /** The other controllers bring every object to its end. */
  function Settle(s: State): State {
    s.(objects := map i | i in s.objects :: Settled(s.objects[i]))
  }

  lemma {:induction false} SettleMeetsNoNeed(s: State, refs: seq<Reference>, vars: Vars, calls: Role -> Call)
    requires Numbered(s) && AtMostOneEach(s.objects, refs)
    ensures Numbered(Settle(s)) && AllDone(Settle(s).objects) && AtMostOneEach(Settle(s).objects, refs)
    ensures Needs(Settle(s).objects, refs, vars, calls) == Needs(s.objects, refs, vars, calls)
  {
    var v := Settle(s);
    forall i | i in s.objects
      ensures var p, o := v.objects[i], s.objects[i];
              Done(p) && p.kind == o.kind && p.role == o.role && p.spec == o.spec
    {
      SettledIsDone(s.objects[i]);
    }
    forall r | r in refs ensures Found(v.objects, r) == Found(s.objects, r) {
    }
    if refs != [] {
      assert AtMostOneEach(s.objects, refs[1..]) by { assert forall r | r in refs[1..] :: r in refs; }
      SettleMeetsNoNeed(s, refs[1..], vars, calls);
      var r := refs[0];
      assert Found(v.objects, r) == Found(s.objects, r);
      if |Found(s.objects, r)| == 1 {
        assert TheOne(v.objects, r) in {TheOne(s.objects, r)};
        assert TheOne(v.objects, r) == TheOne(s.objects, r);
      }
    }
  }

  /** A pass, and then everything created or updated runs to its end. */
  ghost function Round(s: State, refs: seq<Reference>, vars: Vars, calls: Role -> Call): State {
    Settle(PassOver(s, refs, vars, calls).0)
  }

  ghost function Rounds(s: State, refs: seq<Reference>, vars: Vars, calls: Role -> Call, n: nat): State
    decreases n
  {
    if n == 0 then s else Rounds(Round(s, refs, vars, calls), refs, vars, calls, n - 1)
  }

  /** Faultless calls for distinct roles, on a world where everything that was created is done. */
  ghost predicate Quiet(s: State, refs: seq<Reference>, calls: Role -> Call) {
    Numbered(s) && Distinct(refs) && Faultless(refs, calls) && AtMostOneEach(s.objects, refs) && AllDone(s.objects)
  }

  ghost predicate EndsReady(s: State, refs: seq<Reference>, vars: Vars, calls: Role -> Call) {
    PassOver(s, refs, vars, calls).1.Ready?
  }

  /** A pass is ready after n rounds, and not more than the needs of the references. */
  ghost predicate EndsIn(s: State, refs: seq<Reference>, vars: Vars, calls: Role -> Call, n: nat) {
    n <= Needs(s.objects, refs, vars, calls) && EndsReady(Rounds(s, refs, vars, calls, n), refs, vars, calls)
  }

  /** A round that does not end the rollout brings it nearer. */
  lemma RoundMeetsANeed(s: State, refs: seq<Reference>, vars: Vars, calls: Role -> Call) returns (v: State)
    requires Quiet(s, refs, calls) && !EndsReady(s, refs, vars, calls)
    ensures Quiet(v, refs, calls)
    ensures Needs(v.objects, refs, vars, calls) < Needs(s.objects, refs, vars, calls)
    ensures v == Round(s, refs, vars, calls)
  {
    PassMeetsANeed(s, refs, vars, calls);
    v := Round(s, refs, vars, calls);
    SettleMeetsNoNeed(PassOver(s, refs, vars, calls).0, refs, vars, calls);
  }

  lemma OneMoreRound(s: State, refs: seq<Reference>, vars: Vars, calls: Role -> Call, v: State, n: nat)
    returns (m: nat)
    requires v == Round(s, refs, vars, calls) && EndsIn(v, refs, vars, calls, n)
    requires Needs(v.objects, refs, vars, calls) < Needs(s.objects, refs, vars, calls)
    ensures EndsIn(s, refs, vars, calls, m)
  {
    m := n + 1;
  }

  lemma EndsAtOnce(s: State, refs: seq<Reference>, vars: Vars, calls: Role -> Call)
    requires EndsReady(s, refs, vars, calls)
    ensures EndsIn(s, refs, vars, calls, 0)
  {
  }

  lemma {:induction false} QuietRolloutEnds(s: State, refs: seq<Reference>, vars: Vars, calls: Role -> Call)
    returns (n: nat)
    requires Quiet(s, refs, calls)
    ensures EndsIn(s, refs, vars, calls, n)
    decreases Needs(s.objects, refs, vars, calls)
  {
    if EndsReady(s, refs, vars, calls) {
      n := 0;
      EndsAtOnce(s, refs, vars, calls);
    } else {
      var v := RoundMeetsANeed(s, refs, vars, calls);
      var more := QuietRolloutEnds(v, refs, vars, calls);
      n := OneMoreRound(s, refs, vars, calls, v, more);
    }
  }

  /** Without faults, for every arrangement of the references, after at most two rounds a reference all of them are
      ready and the condition becomes true. */
  lemma RolloutEnds(templates: map<Role, TemplateReference>, t: TemplateType, s: State,
                    refs: seq<Reference>, vars: Vars, calls: Role -> Call) returns (n: nat)
    requires IsReferences(templates, t, refs) && Faultless(refs, calls)
    requires Numbered(s) && AtMostOneEach(s.objects, refs) && AllDone(s.objects)
    ensures n <= 2 * |refs| && EndsReady(Rounds(s, refs, vars, calls, n), refs, vars, calls)
  {
    forall i, j | 0 <= i < j < |refs| ensures refs[i].role != refs[j].role {
      RolesAreDistinct(templates, t, refs, i, j);
    }
    n := QuietRolloutEnds(s, refs, vars, calls);
  }

  // ---- Ready too early --------------------------------------------------------------------------

  /** A deployment that succeeded and then gets a new specification still shows its old success. The pass that updates
      it waits; the next one takes what is on record for the new specification's. That its own controller has looked in
      between, and observed the new generation, is no help: the agent may be paused. */
  lemma StaleSuccessIsTakenForReady(s: State, ref: Reference, vars: Vars, call: Call, looks: bool)
    requires Faultless([ref], (_: Role) => call) && ref.ref.kind.PlaybookDeploymentTemplate?
    requires |Found(s.objects, ref)| == 1
    requires var o := s.objects[TheOne(s.objects, ref)];
             && Fits(o) && SucceededForPresent(o) && o.spec != UpdatedSpec(call.template.value, vars)
             && (looks ==> o.looking.None?)
    ensures var (s1, first) := Handle(s, ref, vars, call);
            var id := TheOne(s.objects, ref);
            && first == NotReady && id in s1.objects
            && var o1 := if looks then Own(Own(s1.objects[id], Look), Stamp) else s1.objects[id];
               var (s2, second) := Handle(s1.(objects := s1.objects[id := o1]), ref, vars, call);
               && second == Ready && id in s2.objects && s2.objects[id] == o1
               && !SucceededForPresent(o1) && (looks ==> o1.observed == o1.generation)
  {
    var id, s1 := TheOne(s.objects, ref), Handle(s, ref, vars, call).0;
    assert ref in [ref];
    assert id in Found(s.objects, ref);
    assert forall i | i in s.objects && i != id :: i !in Found(s.objects, ref);
    if looks { StampObserves(s1.objects[id]); }
    var o1 := if looks then Own(Own(s1.objects[id], Look), Stamp) else s1.objects[id];
    var s1' := s1.(objects := s1.objects[id := o1]);
    assert Found(s1'.objects, ref) == {id};
    assert TheOne(s1'.objects, ref) in {id};
  }
}

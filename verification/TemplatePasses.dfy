/**
 Passes of the template reconciler among the steps of everybody else: statuses change and objects disappear between
 two references of one pass, and templates between two passes.
 */
module TemplatePasses {
  import opened Common
  import opened Sorting
  import opened ObjectStatus
  import opened TemplateSequencing
  import opened TemplateRollout

  /** `seen` holds the objects found ready in this pass, one for each reference handled. */
  datatype Pass =
    | Idle
    | Handling(templates: map<Role, TemplateReference>, t: TemplateType, vars: Vars,
               refs: seq<Reference>, seen: seq<Object>)

  /** What passes did: an object created for a role, or the end with every reference ready. */
  datatype Event =
    | Created(role: Role, templates: map<Role, TemplateReference>, t: TemplateType, seen: seq<Object>)
    | Finished(templates: map<Role, TemplateReference>, t: TemplateType, seen: seq<Object>)

  datatype World = World(state: State, pass: Pass, install: Condition, delete: Condition, history: seq<Event>)

  const EMPTY := World(State(map[], 0, map[]), Idle, Unset, Unset, [])

  datatype Step =
    | Begin(templates: map<Role, TemplateReference>, t: TemplateType, vars: Vars, refs: seq<Reference>)
    | Proceed(call: Call)
    | Move(id: Id, step: OwnStep) // by the object's own controller
    | Gone(id: Id)

  function Mark(w: World, t: TemplateType, c: Condition): World {
    match t
    case Install => w.(install := c)
    case Delete => w.(delete := c)
    case OtherType => w
  }

  ghost function ProceedPass(w: World, call: Call): World
    requires w.pass.Handling?
  {
    var p := w.pass;
    if |p.seen| >= |p.refs| then
      Mark(w, p.t, IsTrue).(pass := Idle, history := w.history + [Finished(p.templates, p.t, p.seen)])
    else
      var ref := p.refs[|p.seen|];
      var (s, v) := Handle(w.state, ref, p.vars, call);
      if v.Ready? then w.(state := s, pass := p.(seen := p.seen + [w.state.objects[TheOne(w.state.objects, ref)]]))
      else
        var after := Mark(w, p.t, IsFalse).(state := s, pass := Idle);
        if s.next == w.state.next then after
        else after.(history := w.history + [Created(ref.role, p.templates, p.t, p.seen)])
  }

  function With(w: World, id: Id, o: Object): World {
    w.(state := w.state.(objects := w.state.objects[id := o]))
  }

  ghost function Apply(w: World, s: Step): World {
    match s
    case Begin(templates, t, vars, refs) =>
      if w.pass.Idle? && !t.OtherType? && IsReferences(templates, t, refs)
      then w.(pass := Handling(templates, t, vars, refs, [])) else w
    case Proceed(call) => if w.pass.Handling? then ProceedPass(w, call) else w
    case Move(id, step) => if id !in w.state.objects then w else With(w, id, Own(w.state.objects[id], step))
    case Gone(id) => w.(state := w.state.(objects := w.state.objects - {id}))
  }

  ghost function Run(w: World, steps: seq<Step>): World
    decreases |steps|
  {
    if steps == [] then w else Run(Apply(w, steps[0]), steps[1..])
  }

  // ---- Invariant --------------------------------------------------------------------------------

  predicate OneObjectEach(objects: map<Id, Object>) {
    forall i, j {:trigger objects[i], objects[j]} | i in objects && j in objects
      && objects[i].kind == objects[j].kind && objects[i].role == objects[j].role :: i == j
  }

  predicate Answers(o: Object, ref: Reference) { o.kind == ref.ref.kind && o.role == ref.role && Done(o) }

  /** The objects seen in a pass answer its references so far. */
  ghost predicate PassFits(p: Pass) {
    p.Handling? ==>
      && IsReferences(p.templates, p.t, p.refs) && |p.seen| <= |p.refs|
      && forall i | 0 <= i < |p.seen| :: Answers(p.seen[i], p.refs[i]) && Fits(p.seen[i])
  }

  predicate AllFit(objects: map<Id, Object>) { forall i | i in objects :: Fits(objects[i]) }

  predicate SeenFit(seen: seq<Object>) { forall o | o in seen :: Done(o) && Fits(o) }

  predicate SeenReady(seen: seq<Object>, ref: Reference) { exists o :: o in seen && Answers(o, ref) }

  /** An object of some role is created, or a pass finished, after everything before it was seen ready in that pass. */
  ghost predicate Justified(e: Event) {
    match e
    case Created(role, templates, t, seen) =>
      role in templates && templates[role].templateType == t
      && forall r | r in templates && templates[r].templateType == t
                     && templates[r].priority > templates[role].priority ::
           SeenReady(seen, Reference(r, templates[r]))
    case Finished(templates, t, seen) =>
      SeenFit(seen) &&
      forall r | r in templates && templates[r].templateType == t :: SeenReady(seen, Reference(r, templates[r]))
  }

  ghost predicate Inv(w: World) {
    && Numbered(w.state) && OneObjectEach(w.state.objects) && AllFit(w.state.objects) && PassFits(w.pass)
    && forall e | e in w.history :: Justified(e)
  }

  lemma CreationIsJustified(p: Pass)
    requires p.Handling? && PassFits(p) && |p.seen| < |p.refs|
    ensures Justified(Created(p.refs[|p.seen|].role, p.templates, p.t, p.seen))
  {
    var k, role := |p.seen|, p.refs[|p.seen|].role;
    assert p.refs[k] in multiset(p.refs);
    forall r | r in p.templates && p.templates[r].templateType == p.t
               && p.templates[r].priority > p.templates[role].priority
      ensures SeenReady(p.seen, Reference(r, p.templates[r]))
    {
      HigherPriorityIsEarlier(p.templates, p.t, p.refs, k, r);
      var i :| 0 <= i < k && p.refs[i] == Reference(r, p.templates[r]);
      assert p.seen[i] in p.seen && Answers(p.seen[i], p.refs[i]);
    }
  }

  lemma FinishIsJustified(p: Pass)
    requires p.Handling? && PassFits(p) && |p.seen| == |p.refs|
    ensures Justified(Finished(p.templates, p.t, p.seen))
  {
    forall r | r in p.templates && p.templates[r].templateType == p.t
      ensures SeenReady(p.seen, Reference(r, p.templates[r]))
    {
      assert Reference(r, p.templates[r]) in multiset(p.refs);
      var i :| 0 <= i < |p.refs| && p.refs[i] == Reference(r, p.templates[r]);
      assert p.seen[i] in p.seen && Answers(p.seen[i], p.refs[i]);
    }
  }

  lemma HandleKeepsObjects(s: State, ref: Reference, vars: Vars, call: Call)
    requires Numbered(s) && OneObjectEach(s.objects)
    ensures Numbered(Handle(s, ref, vars, call).0) && OneObjectEach(Handle(s, ref, vars, call).0.objects)
  {
    var v := Handle(s, ref, vars, call).0;
    if |Found(s.objects, ref)| == 1 {
      var id := TheOne(s.objects, ref);
      assert id in Found(s.objects, ref);
      assert v.objects == s.objects || v.objects == s.objects[id := v.objects[id]];
    } else if |Found(s.objects, ref)| == 0 {
      assert forall i | i in s.objects :: i !in Found(s.objects, ref);
      assert v.objects == s.objects || v.objects == s.objects[s.next := v.objects[s.next]];
    }
  }

  lemma HandleKeepsFits(s: State, ref: Reference, vars: Vars, call: Call)
    requires AllFit(s.objects)
    ensures AllFit(Handle(s, ref, vars, call).0.objects)
  {
    if |Found(s.objects, ref)| == 1 {
      assert TheOne(s.objects, ref) in Found(s.objects, ref);
    }
  }

  lemma ProceedKeepsPass(w: World, call: Call)
    requires w.pass.Handling? && PassFits(w.pass) && AllFit(w.state.objects)
    ensures PassFits(ProceedPass(w, call).pass)
  {
    var p := w.pass;
    if |p.seen| < |p.refs| {
      var ref := p.refs[|p.seen|];
      HandleIsReadyIff(w.state, ref, p.vars, call);
      if ReadyIn(w.state.objects, ref, p.vars, call) {
        assert TheOne(w.state.objects, ref) in Found(w.state.objects, ref);
      }
    }
  }

  lemma ProceedKeepsInv(w: World, call: Call)
    requires Inv(w) && w.pass.Handling?
    ensures Inv(ProceedPass(w, call))
  {
    var p := w.pass;
    ProceedKeepsPass(w, call);
    if |p.seen| < |p.refs| {
      HandleKeepsObjects(w.state, p.refs[|p.seen|], p.vars, call);
      HandleKeepsFits(w.state, p.refs[|p.seen|], p.vars, call);
      CreationIsJustified(p);
    } else {
      FinishIsJustified(p);
    }
  }

  lemma MoveKeepsInv(w: World, id: Id, step: OwnStep)
    requires Inv(w) && id in w.state.objects
    ensures Inv(With(w, id, Own(w.state.objects[id], step)))
  {
    OwnKeepsFits(w.state.objects[id], step);
    OwnKeepsSpec(w.state.objects[id], step);
  }

  lemma StepKeepsInv(w: World, s: Step)
    requires Inv(w)
    ensures Inv(Apply(w, s))
  {
    match s
    case Proceed(call) => if w.pass.Handling? { ProceedKeepsInv(w, call); }
    case Move(id, step) => if id in w.state.objects { MoveKeepsInv(w, id, step); }
    case _ =>
  }

  lemma {:induction false} RunKeepsInv(w: World, steps: seq<Step>)
    requires Inv(w)
    ensures Inv(Run(w, steps))
    decreases |steps|
  {
    if steps != [] {
      StepKeepsInv(w, steps[0]);
      RunKeepsInv(Apply(w, steps[0]), steps[1..]);
    }
  }

  /** In every run, with any templates, map orders, failing calls and lost replies: an owner never has two objects of
      one kind for one role. */
  lemma OneObjectPerRole(steps: seq<Step>, i: Id, j: Id)
    requires var objects := Run(EMPTY, steps).state.objects;
             && i in objects && j in objects && objects[i].kind == objects[j].kind && objects[i].role == objects[j].role
    ensures i == j
  {
    RunKeepsInv(EMPTY, steps);
  }

  /** In every run: an object is created only after the same pass saw everything of higher priority succeed, and a
      pass ends well only after it saw everything of its type succeed. */
  lemma HigherPrioritiesFirst(steps: seq<Step>, k: nat)
    requires k < |Run(EMPTY, steps).history|
    ensures Justified(Run(EMPTY, steps).history[k])
  {
    RunKeepsInv(EMPTY, steps);
    assert Run(EMPTY, steps).history[k] in Run(EMPTY, steps).history;
  }

  /** In every run: what a finished pass claims, that everything of its type has succeeded for its present
      specification, is true exactly when every deployment it took for ready has the checksum of its present
      specification on record; provided that their last pushes are on record. */
  lemma FinishedIsTrueExactly(steps: seq<Step>, k: nat)
    requires k < |Run(EMPTY, steps).history| && Run(EMPTY, steps).history[k].Finished?
    ensures var seen := Run(EMPTY, steps).history[k].seen;
            (forall o | o in seen :: !o.unrecorded) ==>
              ((forall o | o in seen :: SucceededForPresent(o)) <==>
               (forall o | o in seen && o.kind.PlaybookDeploymentTemplate? :: o.checksum == Some(o.spec)))
  {
    HigherPrioritiesFirst(steps, k);
    var seen := Run(EMPTY, steps).history[k].seen;
    forall o | o in seen && !o.unrecorded
      ensures o.kind.PlaybookDeploymentTemplate? ==> (SucceededForPresent(o) <==> o.checksum == Some(o.spec))
      ensures o.kind.PlaybookTemplate? ==> SucceededForPresent(o)
    {
      SuccessIsPresentExactly(o);
    }
  }

  // ---- An undisturbed pass is a run -------------------------------------------------------------

  /** The steps of a pass from its k-th reference on. */
  ghost function PassSteps(refs: seq<Reference>, calls: Role -> Call): seq<Step> {
    seq(|refs| + 1, i requires 0 <= i <= |refs| =>
      Proceed(if i < |refs| then calls(refs[i].role) else Call(false, None, Rejected)))
  }

  lemma {:induction false} StepsWithoutPass(w: World, steps: seq<Step>)
    requires w.pass.Idle? && forall s | s in steps :: s.Proceed?
    ensures Run(w, steps) == w
    decreases |steps|
  {
    if steps != [] {
      assert steps[0] in steps;
      StepsWithoutPass(w, steps[1..]);
    }
  }

  lemma {:induction false} PassIsARun(w: World, calls: Role -> Call)
    requires w.pass.Handling? && |w.pass.seen| <= |w.pass.refs|
    ensures var p := w.pass;
            var rest := p.refs[|p.seen|..];
            var v := Run(w, PassSteps(rest, calls));
            var (s, verdict) := PassOver(w.state, rest, p.vars, calls);
            && v.pass.Idle? && v.state == s
            && v.install == (if !p.t.Install? then w.install else if verdict.Ready? then IsTrue else IsFalse)
            && v.delete == (if !p.t.Delete? then w.delete else if verdict.Ready? then IsTrue else IsFalse)
    decreases |w.pass.refs| - |w.pass.seen|
  {
    var p := w.pass;
    var rest := p.refs[|p.seen|..];
    var steps := PassSteps(rest, calls);
    var w1 := Apply(w, steps[0]);
    if rest == [] {
      assert steps[1..] == [];
    } else {
      assert steps[1..] == PassSteps(rest[1..], calls);
      var (s1, v) := Handle(w.state, rest[0], p.vars, calls(rest[0].role));
      if v.Ready? {
        assert p.refs[|w1.pass.seen|..] == rest[1..];
        PassIsARun(w1, calls);
      } else {
        StepsWithoutPass(w1, steps[1..]);
      }
    }
  }
}

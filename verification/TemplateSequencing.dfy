/**
 Playbooks made from templates (cluster-api-provider-kubeforce/controllers/playbook/reconciler.go): the references of
 one type are handled in order of priority, each role's object is created or updated, and a pass goes on only past
 references that are ready.

 A world holds the objects of one owner. `Begin` and `Proceed` are the steps of a pass; between them the other
 controllers change statuses and delete objects.
 */
module TemplateSequencing {
  import opened Common
  import opened Sorting
  import opened ObjectStatus

  type Role = string
  type Id = nat // a generated name

  datatype TemplateType = Install | Delete | OtherType

  datatype TemplateReference = TemplateReference(kind: Kind, name: string, priority: int, templateType: TemplateType)

  datatype Reference = Reference(role: Role, ref: TemplateReference)

  /** A file's content; marshalled variables stand for the map they came from. */
  datatype Content = Text(text: string) | Variables(vars: map<string, string>)

  datatype Spec = Spec(files: map<string, Content>, entrypoint: string)

  type Object = Managed<Spec>

  /** `shown` is the owner's status: the object and phase last seen for a role. */
  datatype State = State(objects: map<Id, Object>, next: Id, shown: map<Role, (Id, string)>)

  type Vars = Option<map<string, string>>

  // ---- References -------------------------------------------------------------------------------

  function Matching(templates: map<Role, TemplateReference>, t: TemplateType): set<Reference> {
    set r | r in templates && templates[r].templateType == t :: Reference(r, templates[r])
  }

  predicate ByPriority(x: Reference, y: Reference) { x.ref.priority >= y.ref.priority }

  /** All references of the type, each once, the highest priority first. */
  ghost predicate IsReferences(templates: map<Role, TemplateReference>, t: TemplateType, refs: seq<Reference>) {
    multiset(refs) == multiset(Matching(templates, t)) && Sorted(ByPriority, refs)
  }

  lemma RolesAreDistinct(templates: map<Role, TemplateReference>, t: TemplateType, refs: seq<Reference>, i: nat, j: nat)
    requires IsReferences(templates, t, refs) && i < j < |refs|
    ensures refs[i].role != refs[j].role
  {
    assert refs[i] in multiset(refs) && refs[j] in multiset(refs);
    TwiceInMultiset(refs, i, j);
  }

  /** A reference of higher priority stands before. */
  lemma HigherPriorityIsEarlier(templates: map<Role, TemplateReference>, t: TemplateType,
                                refs: seq<Reference>, k: nat, r: Role)
    requires IsReferences(templates, t, refs) && k < |refs| && r in templates && templates[r].templateType == t
    requires templates[r].priority > refs[k].ref.priority
    ensures exists i :: 0 <= i < k && refs[i] == Reference(r, templates[r])
  {
    assert Reference(r, templates[r]) in multiset(refs);
    var i :| 0 <= i < |refs| && refs[i] == Reference(r, templates[r]);
    assert k < i ==> ByPriority(refs[k], refs[i]);
  }

  /** One more role handled. */
  lemma MatchingGrows(templates: map<Role, TemplateReference>, t: TemplateType, roles: set<Role>, role: Role)
    requires role in roles && roles <= templates.Keys
    ensures var before, after := Matching(templates - roles, t), Matching(templates - (roles - {role}), t);
            if templates[role].templateType == t
            then multiset(after) == multiset(before) + multiset{Reference(role, templates[role])}
            else after == before
  {
    var before, after := Matching(templates - roles, t), Matching(templates - (roles - {role}), t);
    var r := Reference(role, templates[role]);
    var more := templates - (roles - {role});
    assert before <= after by {
      forall x | x in before ensures x in after { assert x.role in more; }
    }
    forall x | x in after && x != r ensures x in before { assert x.role in templates - roles; }
    assert role in more && r !in before;
    if templates[role].templateType == t {
      assert after == before + {r};
    } else {
      assert after == before;
    }
  }

  method GetReferences(templates: map<Role, TemplateReference>, t: TemplateType) returns (refs: seq<Reference>)
    ensures IsReferences(templates, t, refs)
  {
    var found: seq<Reference> := [];
    var roles := templates.Keys;
    while roles != {}
      invariant roles <= templates.Keys
      invariant multiset(found) == multiset(Matching(templates - roles, t))
      decreases roles
    {
      var role :| role in roles;
      MatchingGrows(templates, t, roles, role);
      if templates[role].templateType == t {
        found := found + [Reference(role, templates[role])];
      }
      roles := roles - {role};
    }
    assert templates - {} == templates;
    refs := SortReferences(found);
  }

  method SortReferences(found: seq<Reference>) returns (refs: seq<Reference>)
    ensures multiset(refs) == multiset(found) && Sorted(ByPriority, refs)
  {
    var a := new Reference[|found|](i requires 0 <= i < |found| => found[i]);
    assert a[..] == found;
    SortInPlace(ByPriority, a);
    SortKeepsElements(ByPriority, found);
    SortSorts(ByPriority, found);
    refs := a[..];
  }

  // ---- One reference ----------------------------------------------------------------------------

  const VARIABLES := "variables.yaml"

  function MergeVars(vars: Vars, ours: map<string, string>): Vars {
    if |ours| == 0 then vars else Some((if vars.Some? then vars.value else map[]) + ours)
  }

  /** Variable by variable: the template's own come first, then the caller's; without any of its own the caller's are
      passed on, absent or not. */
  lemma MergedMeans(vars: Vars, ours: map<string, string>, k: string)
    ensures var merged := MergeVars(vars, ours);
            && (ours == map[] ==> merged == vars)
            && (ours != map[] ==> merged.Some?)
            && (k in ours ==> merged.Some? && k in merged.value && merged.value[k] == ours[k])
            && (k !in ours ==>
                  ((merged.Some? && k in merged.value) <==> (vars.Some? && k in vars.value))
                  && (merged.Some? && k in merged.value ==> merged.value[k] == vars.value[k]))
  {
  }

  function CreatedSpec(t: Spec, vars: Vars): Spec {
    if vars.Some? && |vars.value| > 0 then t.(files := t.files[VARIABLES := Variables(vars.value)]) else t
  }

  function UpdatedSpec(t: Spec, vars: Vars): Spec {
    if vars.Some? then t.(files := t.files[VARIABLES := Variables(vars.value)]) else t
  }

  /** File by file: an object gets the template's files and entrypoint, and the variables under their own name. */
  lemma SpecsMean(t: Spec, vars: Vars, name: string)
    ensures var created, updated := CreatedSpec(t, vars), UpdatedSpec(t, vars);
            && created.entrypoint == updated.entrypoint == t.entrypoint
            && (name != "variables.yaml" ==>
                  (name in t.files <==> name in created.files) && (name in t.files <==> name in updated.files)
                  && (name in t.files ==> created.files[name] == updated.files[name] == t.files[name]))
            && (vars.Some? ==> VARIABLES in updated.files && updated.files[VARIABLES] == Variables(vars.value))
            && (vars.Some? && vars.value != map[] ==>
                  VARIABLES in created.files && created.files[VARIABLES] == Variables(vars.value))
            && (vars.None? ==> created == updated == t) && (vars == Some(map[]) ==> created == t)
  {
  }

  /** A new deployment is left alone by the next update exactly when the variables are not an empty map (or the
      template itself holds the marshalled empty map). */
  lemma CreateAgreesWithUpdate(t: Spec, vars: Vars)
    ensures CreatedSpec(t, vars) == UpdatedSpec(t, vars) <==>
            vars != Some(map[]) || (VARIABLES in t.files && t.files[VARIABLES] == Variables(map[]))
  {
    if vars.Some? && |vars.value| == 0 {
      assert vars.value == map[];
      assert UpdatedSpec(t, vars).files[VARIABLES] == Variables(map[]);
      if VARIABLES in t.files && t.files[VARIABLES] == Variables(map[]) {
        assert t.files[VARIABLES := Variables(map[])] == t.files;
      }
    }
  }

  /** How the API calls for a reference end: the list, the template (None: an error) and the write. */
  datatype Call = Call(list: bool, template: Option<Spec>, write: WriteResult)

  datatype Verdict = Ready | NotReady | Failed

  function Found(objects: map<Id, Object>, ref: Reference): set<Id> {
    set i | i in objects && objects[i].kind == ref.ref.kind && objects[i].role == ref.role
  }

  ghost function TheOne(objects: map<Id, Object>, ref: Reference): (i: Id)
    requires |Found(objects, ref)| == 1
    ensures Found(objects, ref) == {i}
  {
    var i :| i in Found(objects, ref);
    assert |Found(objects, ref) - {i}| == 0;
    assert Found(objects, ref) == (Found(objects, ref) - {i}) + {i};
    i
  }

  function Wanted(o: Object, template: Spec, vars: Vars): Spec {
    if o.kind.PlaybookDeploymentTemplate? then UpdatedSpec(template, vars) else o.spec
  }

  ghost function Handle(s: State, ref: Reference, vars: Vars, call: Call): (State, Verdict) {
    if ref.ref.kind.OtherKind? || !call.list || |Found(s.objects, ref)| > 1 || call.template.None? then (s, Failed)
    else if |Found(s.objects, ref)| == 0 then
      var created := NewManaged(ref.ref.kind, ref.role, CreatedSpec(call.template.value, vars));
      var s' := s.(objects := s.objects[s.next := created], next := s.next + 1);
      match call.write
      case Applied => (s'.(shown := s.shown[ref.role := (s.next, "")]), NotReady)
      case ReplyLost => (s', Failed)
      case Rejected => (s, Failed)
    else
      var id := TheOne(s.objects, ref);
      var o := s.objects[id];
      var s1 := s.(shown := s.shown[ref.role := (id, o.phase)]);
      var wanted := Wanted(o, call.template.value, vars);
      if o.spec == wanted then (s1, if Done(o) then Ready else NotReady)
      else
        (if call.write.Rejected? then s1 else s1.(objects := s.objects[id := o.WithSpec(wanted)]),
         if call.write.Applied? then NotReady else Failed)
  }

  /** What one reference comes to, for every state and every outcome of its calls: an error exactly for a bad kind, an
      ambiguous list or a failing call; ready exactly for one object that needs no update, is synced and succeeded. A
      missing object is created, a deployment that differs from its template is rewritten, a playbook never is. */
  lemma HandleTells(s: State, ref: Reference, vars: Vars, call: Call)
    ensures var (v, verdict) := Handle(s, ref, vars, call);
            var found := Found(s.objects, ref);
            var served := !ref.ref.kind.OtherKind? && call.list && call.template.Some? && |found| <= 1;
            var missing := served && |found| == 0;
            var stale := served && |found| == 1 && ref.ref.kind.PlaybookDeploymentTemplate?
                         && s.objects[TheOne(s.objects, ref)].spec != UpdatedSpec(call.template.value, vars);
            && (verdict.Failed? <==> !served || ((missing || stale) && !call.write.Applied?))
            && (verdict.Ready? <==>
                  served && !missing && !stale && s.objects[TheOne(s.objects, ref)].synced == IsTrue
                  && s.objects[TheOne(s.objects, ref)].phase == "Succeeded")
            && (missing && !call.write.Rejected? ==>
                  && v.next == s.next + 1
                  && v.objects == s.objects[s.next := NewManaged(ref.ref.kind, ref.role,
                                                                 CreatedSpec(call.template.value, vars))])
            && (stale && !call.write.Rejected? ==>
                  var id := TheOne(s.objects, ref);
                  v.objects == s.objects[id := s.objects[id].WithSpec(UpdatedSpec(call.template.value, vars))])
            && ((!missing && !stale) || call.write.Rejected? ==> v.objects == s.objects && v.next == s.next)
            && (served && !missing ==>
                  var id := TheOne(s.objects, ref);
                  v.shown == s.shown[ref.role := (id, s.objects[id].phase)])
            && (missing && call.write.Applied? ==> v.shown == s.shown[ref.role := (s.next, "")])
  {
    if |Found(s.objects, ref)| == 1 { assert TheOne(s.objects, ref) in Found(s.objects, ref); }
  }

  // ---- A pass without interference --------------------------------------------------------------

  ghost function PassOver(s: State, refs: seq<Reference>, vars: Vars, calls: Role -> Call): (State, Verdict)
    decreases |refs|
  {
    if refs == [] then (s, Ready)
    else
      var (s1, v) := Handle(s, refs[0], vars, calls(refs[0].role));
      if v.Ready? then PassOver(s1, refs[1..], vars, calls) else (s1, v)
  }

  /** A reference is ready: its calls succeed, it has one object, a deployment carries what the template says now, and
      the object is synced and succeeded. */
  ghost predicate ReadyIn(objects: map<Id, Object>, ref: Reference, vars: Vars, call: Call) {
    && !ref.ref.kind.OtherKind? && call.list && call.template.Some?
    && |Found(objects, ref)| == 1
    && var o := objects[TheOne(objects, ref)];
       o.spec == Wanted(o, call.template.value, vars) && Done(o)
  }

  lemma HandleIsReadyIff(s: State, ref: Reference, vars: Vars, call: Call)
    ensures Handle(s, ref, vars, call).1.Ready? <==> ReadyIn(s.objects, ref, vars, call)
    ensures Handle(s, ref, vars, call).1.Ready? ==> Handle(s, ref, vars, call).0.objects == s.objects
    ensures Handle(s, ref, vars, call).1.Ready? ==> Handle(s, ref, vars, call).0.next == s.next
  {
  }

  /** A pass succeeds exactly when all its references are ready, and then it changes no object. */
  lemma {:induction false} PassIsReadyIff(s: State, refs: seq<Reference>, vars: Vars, calls: Role -> Call)
    ensures PassOver(s, refs, vars, calls).1.Ready?
            <==> forall r | r in refs :: ReadyIn(s.objects, r, vars, calls(r.role))
    ensures PassOver(s, refs, vars, calls).1.Ready? ==> PassOver(s, refs, vars, calls).0.objects == s.objects
    decreases |refs|
  {
    if refs != [] {
      HandleIsReadyIff(s, refs[0], vars, calls(refs[0].role));
      var s1 := Handle(s, refs[0], vars, calls(refs[0].role)).0;
      PassIsReadyIff(s1, refs[1..], vars, calls);
      assert forall r | r in refs :: r == refs[0] || r in refs[1..];
    }
  }

  /** The order of the map, which decides between equal priorities, does not matter for the outcome. */
  lemma OutcomeIgnoresMapOrder(templates: map<Role, TemplateReference>, t: TemplateType, s: State, refs: seq<Reference>,
                               others: seq<Reference>, vars: Vars, calls: Role -> Call)
    requires IsReferences(templates, t, refs) && IsReferences(templates, t, others)
    ensures PassOver(s, refs, vars, calls).1.Ready? == PassOver(s, others, vars, calls).1.Ready?
  {
    PassIsReadyIff(s, refs, vars, calls);
    PassIsReadyIff(s, others, vars, calls);
    forall r ensures r in refs <==> r in others {
      assert r in refs <==> r in multiset(refs);
      assert r in others <==> r in multiset(others);
    }
  }

  /** What a pass changes belongs to one reference, and all references before it are ready. */
  lemma {:induction false} PassChangesOneRole(s: State, refs: seq<Reference>, vars: Vars, calls: Role -> Call)
    returns (k: nat)
    ensures PassOver(s, refs, vars, calls).0.objects != s.objects ==>
              && k < |refs|
              && (forall i | 0 <= i < k :: ReadyIn(s.objects, refs[i], vars, calls(refs[i].role)))
              && PassOver(s, refs, vars, calls).0.objects == Handle(s, refs[k], vars, calls(refs[k].role)).0.objects
    decreases |refs|
  {
    k := 0;
    if refs != [] {
      HandleIsReadyIff(s, refs[0], vars, calls(refs[0].role));
      var (s1, v) := Handle(s, refs[0], vars, calls(refs[0].role));
      if v.Ready? && PassOver(s, refs, vars, calls).0.objects != s.objects {
        var n := PassChangesOneRole(s1, refs[1..], vars, calls);
        k := n + 1;
        HandleLooksAtObjects(s, s1, refs[k], vars, calls(refs[k].role));
        forall i | 0 < i < k ensures ReadyIn(s.objects, refs[i], vars, calls(refs[i].role)) {
          assert refs[1..][i - 1] == refs[i];
        }
      }
    }
  }

  /** A pass that is not ready stops at its first reference that is not, with that one's verdict: an error exactly if
      there it met one. */
  lemma {:induction false} PassStopsAt(s: State, refs: seq<Reference>, vars: Vars, calls: Role -> Call)
    returns (k: nat)
    ensures !PassOver(s, refs, vars, calls).1.Ready? ==>
              && k < |refs|
              && (forall i | 0 <= i < k :: ReadyIn(s.objects, refs[i], vars, calls(refs[i].role)))
              && !ReadyIn(s.objects, refs[k], vars, calls(refs[k].role))
              && PassOver(s, refs, vars, calls).1 == Handle(s, refs[k], vars, calls(refs[k].role)).1
    decreases |refs|
  {
    k := 0;
    if refs != [] {
      HandleIsReadyIff(s, refs[0], vars, calls(refs[0].role));
      var (s1, v) := Handle(s, refs[0], vars, calls(refs[0].role));
      if v.Ready? && !PassOver(s, refs, vars, calls).1.Ready? {
        var n := PassStopsAt(s1, refs[1..], vars, calls);
        k := n + 1;
        HandleLooksAtObjects(s, s1, refs[k], vars, calls(refs[k].role));
        forall i | 0 < i < k ensures ReadyIn(s.objects, refs[i], vars, calls(refs[i].role)) {
          assert refs[1..][i - 1] == refs[i];
        }
      }
    }
  }

  lemma HandleLooksAtObjects(s: State, t: State, ref: Reference, vars: Vars, call: Call)
    requires s.objects == t.objects && s.next == t.next
    ensures Handle(s, ref, vars, call).0.objects == Handle(t, ref, vars, call).0.objects
    ensures Handle(s, ref, vars, call).1 == Handle(t, ref, vars, call).1
  {
  }

  /** A pass creates an object only for a role all of whose higher priorities are ready. */
  lemma PassCreatesInOrder(templates: map<Role, TemplateReference>, t: TemplateType, s: State,
                           refs: seq<Reference>, vars: Vars, calls: Role -> Call, id: Id, r: Role)
    requires IsReferences(templates, t, refs)
    requires id !in s.objects && id in PassOver(s, refs, vars, calls).0.objects
    requires var o := PassOver(s, refs, vars, calls).0.objects[id];
             r in templates && templates[r].templateType == t && o.role in templates
               && templates[r].priority > templates[o.role].priority
    ensures ReadyIn(s.objects, Reference(r, templates[r]), vars, calls(r))
  {
    var k := PassChangesOneRole(s, refs, vars, calls);
    assert refs[k] in multiset(refs);
    HigherPriorityIsEarlier(templates, t, refs, k, r);
  }
}

/** TemplateReconciler.Reconcile and its parts (cluster-api-provider-kubeforce/controllers/playbook/reconciler.go)
    over the owner and the API. */
module TemplateReconciler {
  import opened Common
  import opened ObjectStatus
  import opened TemplateSequencing

  datatype Templates = Templates(references: map<Role, TemplateReference>, variables: map<string, string>)

  class Api {
    var objects: map<Id, Object>
    var next: Id

    constructor ()
      ensures objects == map[] && next == 0
    {
      objects, next := map[], 0;
    }

    method List(kind: Kind, role: Role) returns (items: set<Id>)
      ensures items == set i | i in objects && objects[i].kind == kind && objects[i].role == role
    {
      items := set i | i in objects && objects[i].kind == kind && objects[i].role == role;
    }

    method Create(o: Object, r: WriteResult) returns (id: Id, ok: bool)
      modifies this
      ensures id == old(next) && ok == r.Applied?
      ensures objects == if r.Rejected? then old(objects) else old(objects)[id := o]
      ensures next == if r.Rejected? then old(next) else old(next) + 1
    {
      id, ok := next, r.Applied?;
      if !r.Rejected? {
        objects, next := objects[id := o], next + 1;
      }
    }

    method Patch(id: Id, spec: Spec, r: WriteResult) returns (ok: bool)
      requires id in objects
      modifies this`objects
      ensures ok == r.Applied?
      ensures objects == if r.Rejected? then old(objects) else old(objects)[id := old(objects)[id].WithSpec(spec)]
    {
      if !r.Rejected? {
        objects := objects[id := objects[id].WithSpec(spec)];
      }
      ok := r.Applied?;
    }
  }

  class Owner {
    const templates: Option<Templates>
    var shown: map<Role, (Id, string)>
    var install: Condition
    var delete: Condition

    constructor (templates: Option<Templates>)
      ensures this.templates == templates && shown == map[] && install == delete == Unset
    {
      this.templates, shown, install, delete := templates, map[], Unset, Unset;
    }

    method Mark(t: TemplateType, c: Condition)
      modifies this`install, this`delete
      ensures install == if t.Install? then c else old(install)
      ensures delete == if t.Delete? then c else old(delete)
    {
      match t
      case Install => install := c;
      case Delete => delete := c;
      case OtherType =>
    }
  }

  function Snapshot(obj: Owner, api: Api): State
    reads obj, api
  {
    State(api.objects, api.next, obj.shown)
  }

  function AsVerdict(ready: bool, ok: bool): Verdict { if !ok then Failed else if ready then Ready else NotReady }

  method MergeVariables(vars: Vars, ours: map<string, string>) returns (merged: Vars)
    ensures merged == MergeVars(vars, ours)
  {
    if |ours| == 0 {
      return vars;
    }
    var base: map<string, string> := map[];
    if vars.Some? {
      base := Overlay(base, vars.value);
      assert base == vars.value;
    }
    var result := Overlay(base, ours);
    merged := Some(result);
  }

  /** Copies every entry. */
  method Overlay(base: map<string, string>, more: map<string, string>) returns (result: map<string, string>)
    ensures result == base + more
  {
    result := base;
    var keys := more.Keys;
    NoEntries(base, more, keys);
    while keys != {}
      invariant keys <= more.Keys
      invariant result == base + (more - keys)
      decreases keys
    {
      var k :| k in keys;
      OneMoreEntry(base, more, keys, k);
      result, keys := result[k := more[k]], keys - {k};
    }
    assert more - keys == more;
  }

  lemma NoEntries(base: map<string, string>, more: map<string, string>, keys: set<string>)
    requires keys == more.Keys
    ensures base + (more - keys) == base
  {
    assert more - keys == map[];
  }

  lemma OneMoreEntry(base: map<string, string>, more: map<string, string>, keys: set<string>, k: string)
    requires k in keys && keys <= more.Keys
    ensures (base + (more - keys))[k := more[k]] == base + (more - (keys - {k}))
  {
    assert more - (keys - {k}) == (more - keys)[k := more[k]];
  }

  method ReconcilePlaybook(obj: Owner, api: Api, ref: Reference, vars: Vars, call: Call) returns (ready: bool, ok: bool)
    requires ref.ref.kind.PlaybookTemplate?
    modifies obj`shown, api
    ensures (Snapshot(obj, api), AsVerdict(ready, ok)) == Handle(old(Snapshot(obj, api)), ref, vars, call)
  {
    var items := api.List(PlaybookTemplate, ref.role);
    assert items == Found(api.objects, ref);
    if !call.list || |items| > 1 || call.template.None? {
      return false, false;
    }
    if |items| == 1 {
      var id :| id in items;
      assert id in {TheOne(api.objects, ref)};
      var playbook := api.objects[id];
      obj.shown := obj.shown[ref.role := (id, playbook.phase)];
      return playbook.synced.IsTrue? && playbook.phase == "Succeeded", true;
    }
    var spec := call.template.value;
    if vars.Some? && |vars.value| > 0 {
      spec := spec.(files := spec.files[VARIABLES := Variables(vars.value)]);
    }
    var id;
    id, ok := api.Create(NewManaged(PlaybookTemplate, ref.role, spec), call.write);
    if ok {
      obj.shown := obj.shown[ref.role := (id, "")];
    }
    ready := false;
  }

  method ReconcilePlaybookDeployment(obj: Owner, api: Api, ref: Reference, vars: Vars, call: Call)
    returns (ready: bool, ok: bool)
    requires ref.ref.kind.PlaybookDeploymentTemplate?
    modifies obj`shown, api
    ensures (Snapshot(obj, api), AsVerdict(ready, ok)) == Handle(old(Snapshot(obj, api)), ref, vars, call)
  {
    var items := api.List(PlaybookDeploymentTemplate, ref.role);
    assert items == Found(api.objects, ref);
    if !call.list || |items| > 1 || call.template.None? {
      return false, false;
    }
    if |items| == 1 {
      var id :| id in items;
      assert id in {TheOne(api.objects, ref)};
      var pd := api.objects[id];
      obj.shown := obj.shown[ref.role := (id, pd.phase)];
      var updated;
      updated, ok := UpdatePlaybookDeployment(api, id, call.template.value, vars, call.write);
      return ok && !updated && pd.synced.IsTrue? && pd.phase == "Succeeded", ok;
    }
    var spec := call.template.value;
    if vars.Some? && |vars.value| > 0 {
      spec := spec.(files := spec.files[VARIABLES := Variables(vars.value)]);
    }
    var id;
    id, ok := api.Create(NewManaged(PlaybookDeploymentTemplate, ref.role, spec), call.write);
    if ok {
      obj.shown := obj.shown[ref.role := (id, "")];
    }
    ready := false;
  }

  /** Overlays the template on the deployment's specification and patches if that changed anything. */
  method UpdatePlaybookDeployment(api: Api, id: Id, template: Spec, vars: Vars, r: WriteResult)
    returns (updated: bool, ok: bool)
    requires id in api.objects
    modifies api`objects
    ensures var o := old(api.objects)[id]; var wanted := UpdatedSpec(template, vars);
            if o.spec == wanted then !updated && ok && api.objects == old(api.objects)
            else updated == ok == r.Applied?
                 && api.objects == if r.Rejected? then old(api.objects) else old(api.objects)[id := o.WithSpec(wanted)]
  {
    var spec := template;
    if vars.Some? {
      spec := spec.(files := spec.files[VARIABLES := Variables(vars.value)]);
    }
    if spec != api.objects[id].spec {
      ok := api.Patch(id, spec, r);
      updated := ok;
    } else {
      updated, ok := false, true;
    }
  }

  method ReconcileReference(obj: Owner, api: Api, ref: Reference, vars: Vars, call: Call)
    returns (ready: bool, ok: bool)
    modifies obj`shown, api
    ensures (Snapshot(obj, api), AsVerdict(ready, ok)) == Handle(old(Snapshot(obj, api)), ref, vars, call)
  {
    match ref.ref.kind
    case PlaybookTemplate => ready, ok := ReconcilePlaybook(obj, api, ref, vars, call);
    case PlaybookDeploymentTemplate => ready, ok := ReconcilePlaybookDeployment(obj, api, ref, vars, call);
    case OtherKind => ready, ok := false, false;
  }

  /** `calls` says how the calls for each role end. The references are handled in some order of priority. */
  method Reconcile(obj: Owner, api: Api, t: TemplateType, vars: Vars, calls: Role -> Call)
    returns (ready: bool, ok: bool, ghost refs: seq<Reference>)
    modifies obj, api
    ensures obj.templates.None? || t.OtherType? ==>
              ready == ok == obj.templates.None? && Snapshot(obj, api) == old(Snapshot(obj, api))
              && obj.install == old(obj.install) && obj.delete == old(obj.delete)
    ensures obj.templates.Some? && !t.OtherType? ==>
              && IsReferences(obj.templates.value.references, t, refs)
              && (Snapshot(obj, api), AsVerdict(ready, ok)) ==
                 PassOver(old(Snapshot(obj, api)), refs, MergeVars(vars, obj.templates.value.variables), calls)
              && (if t.Install? then obj.install else obj.delete) == (if ready then IsTrue else IsFalse)
              && (if t.Install? then obj.delete == old(obj.delete) else obj.install == old(obj.install))
  {
    refs := [];
    if obj.templates.None? {
      return true, true, [];
    }
    if t.OtherType? {
      return false, false, [];
    }
    var references := GetReferences(obj.templates.value.references, t);
    refs := references;
    var merged := MergeVariables(vars, obj.templates.value.variables);
    ghost var start := Snapshot(obj, api);
    for i := 0 to |references|
      invariant PassOver(start, references, merged, calls)
                == PassOver(Snapshot(obj, api), references[i..], merged, calls)
      invariant obj.install == old(obj.install) && obj.delete == old(obj.delete)
    {
      ready, ok := ReconcileReference(obj, api, references[i], merged, calls(references[i].role));
      assert references[i..][0] == references[i] && references[i..][1..] == references[i + 1..];
      if !ok || !ready {
        obj.Mark(t, IsFalse);
        return false, ok, refs;
      }
    }
    obj.Mark(t, IsTrue);
    return true, true, refs;
  }
}

/**
 The claim in the machine's reconcile: reconcileAgentRef and findAgent over the objects they change, tied to the
 steps of the claim protocol.
 */
module AgentClaimController {
  import opened Common
  import opened AgentClaim

  /** An agent as some past list showed it. */
  datatype View = View(name: Id, version: nat, holder: Option<Id>, ready: bool)

  class ApiServer {
    var agents: map<Id, Agent>

    /** An update from a snapshot is refused if the agent has moved on. */
    method UpdateAgent(a: Id, version: nat, holder: Id, r: WriteResult) returns (ok: bool)
      modifies this
      ensures var hit := a in old(agents) && old(agents)[a].Version() == version && !r.Rejected?;
              && agents == (if hit then old(agents)[a := old(agents)[a].With(Some(holder))] else old(agents))
              && (ok <==> hit && r.Applied?)
    {
      ok := false;
      if a in agents && agents[a].Version() == version && !r.Rejected? {
        agents := agents[a := agents[a].With(Some(holder))];
        ok := r.Applied?;
      }
    }
  }

  class MachineObject {
    const name: Id
    const hasSelector: bool // spec.agentSelector is set
    var agentRef: Option<Id>
  }

  predicate Eligible(v: View) { v.holder.None? && v.ready }

  /** The first agent of the list that carries no machine label and is ready, if there is one. */
  method FindAgent(agents: seq<View>) returns (found: Option<View>)
    ensures found.Some? ==> found.value.holder.None? && found.value.ready
    ensures found.Some? ==>
              exists i :: 0 <= i < |agents| && agents[i] == found.value
                          && forall j | 0 <= j < i :: !(agents[j].holder.None? && agents[j].ready)
    ensures found.None? ==> forall j | 0 <= j < |agents| :: !(agents[j].holder.None? && agents[j].ready)
  {
    for i := 0 to |agents|
      invariant forall j | 0 <= j < i :: !Eligible(agents[j])
    {
      if Eligible(agents[i]) {
        return Some(agents[i]);
      }
    }
    return None;
  }

  datatype Result = Recorded | Waiting | Conflict | Ambiguous | CallFailed | Provisioned | LabelMismatch

  /** How the reads of a pass end: the agent's, the own-label list, the search with the machine's selector; and
      whether the recorded agent is ready. */
  datatype Reads = Reads(got: bool, listed: bool, searched: bool, ready: bool)

  function Holders(agents: map<Id, Agent>, m: Id): set<Id> {
    set a | a in agents && agents[a].Holds(m)
  }

  /** One uninterrupted pass. `views` is the possibly old list of selected agents. */
  method ReconcileAgentRef(server: ApiServer, machine: MachineObject, views: seq<View>, env: Reads, r: WriteResult)
    returns (result: Result, picked: Option<View>)
    modifies server, machine
    ensures !machine.hasSelector ==>
              && server.agents == old(server.agents) && machine.agentRef == old(machine.agentRef) && picked.None?
              && result.Waiting?
    ensures machine.hasSelector && old(machine.agentRef).Some? ==>
              && server.agents == old(server.agents) && machine.agentRef == old(machine.agentRef) && picked.None?
              && var held := old(machine.agentRef).value in server.agents
                             && server.agents[old(machine.agentRef).value].Holds(machine.name);
                 && (result.Provisioned? <==> env.got && held && env.ready)
                 && (result.Waiting? <==> env.got && held && !env.ready)
                 && (result.LabelMismatch? <==> env.got && old(machine.agentRef).value in server.agents && !held)
                 && (result.CallFailed? <==> !env.got || old(machine.agentRef).value !in server.agents)
    ensures machine.hasSelector && old(machine.agentRef).None? ==>
              var own := Holders(old(server.agents), machine.name);
              && (!env.listed || |own| > 1 || (own == {} && !env.searched) ==>
                    server.agents == old(server.agents) && machine.agentRef.None? && picked.None?)
              && (result.Ambiguous? <==> env.listed && |own| > 1)
              && (own != {} ==> server.agents == old(server.agents) && picked.None?)
              && (env.listed && |own| == 1 ==> machine.agentRef.Some? && own == {machine.agentRef.value})
              && (own == {} && picked.None? ==> server.agents == old(server.agents) && machine.agentRef.None?)
              && (env.listed && own == {} && env.searched ==>
                    && (picked.None? <==> forall v | v in views :: !(v.holder.None? && v.ready))
                    && (picked.None? <==> result.Waiting?))
              && (picked.Some? ==>
                    exists i :: 0 <= i < |views| && views[i] == picked.value
                                && forall j | 0 <= j < i :: !(views[j].holder.None? && views[j].ready))
              && (picked.Some? ==>
                    var v := picked.value;
                    var hit := !r.Rejected? && v.name in old(server.agents)
                                && old(server.agents)[v.name].Version() == v.version;
                    && own == {} && v.holder.None? && v.ready
                    && server.agents == (if hit
                                         then old(server.agents)[v.name :=
                                                old(server.agents)[v.name].With(Some(machine.name))]
                                         else old(server.agents))
                    && machine.agentRef == (if hit && r.Applied? then Some(v.name) else None))
              && (result.Recorded? <==> machine.agentRef.Some?)
              && (result.CallFailed? <==> !env.listed || (own == {} && !env.searched))
              && (result.Conflict? <==> picked.Some? && machine.agentRef.None?)
  {
    picked := None;
    if !machine.hasSelector {
      return Waiting, None;
    }
    if machine.agentRef.Some? {
      var a := machine.agentRef.value;
      if !env.got || a !in server.agents {
        return CallFailed, None;
      }
      if !server.agents[a].Holds(machine.name) {
        return LabelMismatch, None;
      }
      if !env.ready {
        return Waiting, None;
      }
      return Provisioned, None;
    }
    if !env.listed {
      return CallFailed, None;
    }
    var own := Holders(server.agents, machine.name);
    if |own| > 1 {
      return Ambiguous, None;
    }
    if own != {} {
      var a :| a in own;
      assert own == {a} by { SingletonSet(own, a); }
      machine.agentRef := Some(a);
      return Recorded, None;
    }
    if !env.searched {
      return CallFailed, None;
    }
    picked := FindAgent(views);
    if picked.None? {
      return Waiting, picked;
    }
    var ok := server.UpdateAgent(picked.value.name, picked.value.version, machine.name, r);
    if !ok {
      return Conflict, picked;
    }
    machine.agentRef := Some(picked.value.name);
    return Recorded, picked;
  }

  lemma SingletonSet(s: set<Id>, a: Id)
    requires |s| <= 1 && a in s
    ensures s == {a}
  {
    if b :| b in s && b != a {
      assert {a, b} <= s;
      SubsetSize({a, b}, s);
    }
  }

  lemma {:induction false} SubsetSize(s: set<Id>, t: set<Id>)
    requires s <= t
    ensures |s| <= |t|
  {
    if x :| x in s {
      SubsetSize(s - {x}, t - {x});
    }
  }

  /** The pass is a run of the protocol: with a snapshot that was true at its version, its effect on the agent and
      on AgentRef is that of Begin, Pick, Update and Record in a row. */
  lemma ClaimIsARun(w: World, m: Id, v: View, r: WriteResult)
    requires m in w.machines && w.machines[m] == Machine(None, false, Idle) && OwnLabel(w, m, None)
    requires v.name in w.agents && v.holder.None? && v.ready && 0 < v.version <= w.agents[v.name].Version()
    requires w.agents[v.name].history[v.version - 1] == Snapshot(v.holder, v.ready)
    ensures var u := Run(w, [Begin(m, None), Pick(m, v.name, v.version), Update(m, r), Record(m, false)]);
            var hit := w.agents[v.name].Version() == v.version && !r.Rejected?;
            && u.agents == (if hit then w.agents[v.name := w.agents[v.name].With(Some(m))] else w.agents)
            && u.machines == w.machines[m := Machine(if hit && r.Applied? then Some(v.name) else None, false, Idle)]
  {
    var steps := [Begin(m, None), Pick(m, v.name, v.version), Update(m, r), Record(m, false)];
    RunFour(w, steps[0], steps[1], steps[2], steps[3], []);
    assert steps + [] == steps;
    var w1 := Apply(w, steps[0]);
    assert w1 == w.(machines := w.machines[m := Machine(None, false, Searching)]);
    var w2 := Apply(w1, steps[1]);
    assert w2 == w.(machines := w.machines[m := Machine(None, false, Updating(v.name, v.version))]);
    var w3 := Apply(w2, steps[2]);
    var w4 := Apply(w3, steps[3]);
    assert Run(w4, []) == w4;
  }
}

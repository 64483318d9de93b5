/**
 The list of API servers: the cluster controller rebuilds it from its machines (kubeforcecluster_controller.go), and a
 control plane machine that is not on it yet adds itself (kubeforcemachine_controller.go). The two must come out
 equal, or every machine's variables would change once more after the next refresh.
 */
module ApiServers {
  import opened Common
  import opened Sorting
  import opened Strings

  /** An empty address is one that is not known. */
  datatype Machine = Machine(controlPlane: bool, address: string)

  /** The known addresses. */
  function Known(ms: seq<Machine>): seq<string> {
    if ms == [] then []
    else Known(ms[..|ms| - 1]) + if Last(ms).address != "" then [Last(ms).address] else []
  }

  function Servers(ms: seq<Machine>): seq<string> { StableSort(StringLe, Known(ms)) }

  class Cluster {
    var apiServers: Option<seq<string>>

    constructor ()
      ensures apiServers == None
    {
      apiServers := None;
    }

    method RefreshAPIServers(controlPlaneMachines: seq<Machine>)
      modifies this
      ensures apiServers == Some(Servers(controlPlaneMachines))
    {
      var servers: seq<string> := [];
      for i := 0 to |controlPlaneMachines|
        invariant servers == Known(controlPlaneMachines[..i])
      {
        assert controlPlaneMachines[..i + 1][..i] == controlPlaneMachines[..i];
        if controlPlaneMachines[i].address != "" {
          servers := servers + [controlPlaneMachines[i].address];
        }
      }
      assert controlPlaneMachines[..|controlPlaneMachines|] == controlPlaneMachines;
      servers := SortStrings(servers);
      apiServers := Some(servers);
    }

    /** The list as this machine sees it: a control plane machine is always on it, and the list is ascending. */
    method GetAPIServerEndpoints(m: Machine) returns (r: seq<string>)
      ensures r == Endpoints(m, if apiServers.Some? then apiServers.value else [])
    {
      var servers := if apiServers.Some? then apiServers.value else [];
      if !m.controlPlane {
        return servers;
      }
      for i := 0 to |servers|
        invariant m.address !in servers[..i]
      {
        if servers[i] == m.address {
          return servers;
        }
        assert servers[..i + 1] == servers[..i] + [servers[i]];
      }
      assert servers[..|servers|] == servers;
      r := SortStrings(servers + [m.address]);
    }
  }

  function Endpoints(m: Machine, servers: seq<string>): seq<string> {
    if !m.controlPlane || m.address in servers then servers else StableSort(StringLe, servers + [m.address])
  }

  lemma {:induction false} KnownIsNotEmpty(ms: seq<Machine>, a: string)
    requires a in Known(ms)
    ensures a != ""
  {
    if ms != [] && a in Known(ms[..|ms| - 1]) {
      KnownIsNotEmpty(ms[..|ms| - 1], a);
    }
  }

  function OneIfKnown(a: string): multiset<string> { if a == "" then multiset{} else multiset{a} }

  lemma KnownOfLast(ms: seq<Machine>)
    requires ms != []
    ensures multiset(Known(ms)) == multiset(Known(ms[..|ms| - 1])) + OneIfKnown(Last(ms).address)
  {
  }

  lemma SumWithLast(k: multiset<string>, l: multiset<string>, x: multiset<string>, y: multiset<string>,
                    last: multiset<string>)
    requires l + y == k + x
    ensures (l + last) + y == (k + last) + x
  {
    assert (l + last) + y == (l + y) + last;
    assert (k + last) + x == (k + x) + last;
  }

  lemma ChangeAtFront(ms: seq<Machine>, i: nat, a: string)
    requires i < |ms| - 1
    ensures var n, after := |ms| - 1, ms[i := ms[i].(address := a)];
            after[..n] == ms[..n][i := ms[..n][i].(address := a)] && Last(after) == Last(ms)
  {
  }

  /** With address a for its i-th machine, a cluster knows a instead of the old address. */
  predicate Replaced(ms: seq<Machine>, i: nat, a: string)
    requires i < |ms|
  {
    multiset(Known(ms[i := ms[i].(address := a)])) + OneIfKnown(ms[i].address) == multiset(Known(ms)) + OneIfKnown(a)
  }

  lemma LastReplaced(ms: seq<Machine>, a: string)
    requires ms != []
    ensures Replaced(ms, |ms| - 1, a)
  {
    var n := |ms| - 1;
    var after := ms[n := ms[n].(address := a)];
    assert after[..n] == ms[..n];
    KnownOfLast(ms);
    KnownOfLast(after);
  }

  lemma FrontReplaced(ms: seq<Machine>, i: nat, a: string)
    requires i < |ms| - 1 && Replaced(ms[..|ms| - 1], i, a)
    ensures Replaced(ms, i, a)
  {
    var n, after := |ms| - 1, ms[i := ms[i].(address := a)];
    ChangeAtFront(ms, i, a);
    KnownOfLast(ms);
    KnownOfLast(after);
    SumWithLast(multiset(Known(ms[..n])), multiset(Known(after[..n])), OneIfKnown(a), OneIfKnown(ms[i].address),
                OneIfKnown(Last(ms).address));
  }

  /** A machine's new address takes the place of its old one. */
  lemma {:induction false} KnownAfterChange(ms: seq<Machine>, i: nat, a: string)
    requires i < |ms|
    ensures Replaced(ms, i, a)
  {
    if i == |ms| - 1 {
      LastReplaced(ms, a);
    } else {
      KnownAfterChange(ms[..|ms| - 1], i, a);
      FrontReplaced(ms, i, a);
    }
  }

  lemma ServersHold(ms: seq<Machine>)
    ensures multiset(Servers(ms)) == multiset(Known(ms)) && Sorted(StringLe, Servers(ms))
    ensures "" !in multiset(Servers(ms))
  {
    StringLeIsAnOrder();
    SortKeepsElements(StringLe, Known(ms));
    SortSorts(StringLe, Known(ms));
    if "" in Known(ms) {
      KnownIsNotEmpty(ms, "");
    }
  }

  lemma EndpointsHold(m: Machine, servers: seq<string>)
    requires m.controlPlane && Sorted(StringLe, servers)
    ensures Sorted(StringLe, Endpoints(m, servers))
    ensures multiset(Endpoints(m, servers)) ==
            if m.address in multiset(servers) then multiset(servers) else multiset(servers) + multiset{m.address}
  {
    StringLeIsAnOrder();
    assert m.address in servers <==> m.address in multiset(servers);
    SortKeepsElements(StringLe, servers + [m.address]);
    SortSorts(StringLe, servers + [m.address]);
  }

  lemma SortedEqualIff(s: seq<string>, t: seq<string>)
    requires Sorted(StringLe, s) && Sorted(StringLe, t)
    ensures s == t <==> multiset(s) == multiset(t)
  {
    StringLeIsAnOrder();
    if multiset(s) == multiset(t) {
      SortedIsUnique(StringLe, s, t);
    }
  }

  /** A control plane machine whose address is now a sees, over the list of the last refresh, what the next refresh will
      write, exactly when a is known and either was on record already, or is its first one and nobody else's. */
  lemma EndpointsAreTheNextRefresh(ms: seq<Machine>, i: nat, a: string)
    requires i < |ms| && ms[i].controlPlane
    ensures Endpoints(ms[i].(address := a), Servers(ms)) == Servers(ms[i := ms[i].(address := a)]) <==>
            a != "" && (a == ms[i].address || (ms[i].address == "" && a !in Known(ms)))
  {
    var m, after := ms[i].(address := a), ms[i := ms[i].(address := a)];
    ServersHold(ms);
    ServersHold(after);
    EndpointsHold(m, Servers(ms));
    KnownAfterChange(ms, i, a);
    KnownAddressIsListed(ms, i);
    SortedEqualIff(Endpoints(m, Servers(ms)), Servers(after));
    var x, y, k := a, ms[i].address, multiset(Known(ms));
    assert a in Known(ms) <==> a in k;
    ChangeOfOne(k, multiset(Known(after)), y, x);
  }

  lemma {:induction false} KnownAddressIsListed(ms: seq<Machine>, i: nat)
    requires i < |ms|
    ensures ms[i].address != "" ==> ms[i].address in Known(ms)
  {
    if i < |ms| - 1 {
      KnownAddressIsListed(ms[..|ms| - 1], i);
    }
  }

  /** When replacing y by x in a multiset comes to adding x unless it is there. */
  lemma ChangeOfOne(k: multiset<string>, after: multiset<string>, y: string, x: string)
    requires after + OneIfKnown(y) == k + OneIfKnown(x) && "" !in k && (y != "" ==> y in k)
    ensures (if x in k then k else k + multiset{x}) == after <==> x != "" && (x == y || (y == "" && x !in k))
  {
    var more := if x in k then k else k + multiset{x};
    assert |after| + |OneIfKnown(y)| == |k| + |OneIfKnown(x)| by {
      assert |after + OneIfKnown(y)| == |k + OneIfKnown(x)|;
    }
    if x == "" {
      assert more == k + multiset{x} && |more| == |k| + 1;
    } else if y == "" {
      assert after == k + multiset{x};
      assert |k + multiset{x}| == |k| + 1;
    } else if x == y {
      assert after == (after + multiset{y}) - multiset{y};
      assert k == (k + multiset{y}) - multiset{y};
    } else {
      assert (after + multiset{y})[x] == (k + multiset{x})[x];
      assert after[x] == k[x] + 1;
      assert |after| == |k|;
    }
  }
}

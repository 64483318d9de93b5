/**
 The reconcile method of the agent's PlaybookDeployment controller, over the stored object and the listing of the
 API server. The listing comes in any order and holds other owners' playbooks too.
 */
module AgentDeploymentController {
  import opened Common
  import opened Defaulting
  import opened Sorting
  import opened AgentRollout

  predicate CreatedNotAfter(p: Playbook, q: Playbook) { p.created <= q.created }

  const BY_CREATION := (p: Playbook, q: Playbook) => CreatedNotAfter(p, q)

  function Owned(listing: seq<Playbook>, uid: int): seq<Playbook> {
    if listing == [] then []
    else if Last(listing).owner == uid then Owned(listing[..|listing| - 1], uid) + [Last(listing)]
    else Owned(listing[..|listing| - 1], uid)
  }

  /** Owned holds exactly the listed playbooks with that owner, in the order of the listing: `at` are their places. */
  lemma {:induction false} OwnedMeans(listing: seq<Playbook>, uid: int) returns (at: seq<nat>)
    ensures |at| == |Owned(listing, uid)|
    ensures forall i | 0 <= i < |at| :: at[i] < |listing| && Owned(listing, uid)[i] == listing[at[i]]
    ensures forall i, j | 0 <= i < j < |at| :: at[i] < at[j]
    ensures forall k | 0 <= k < |listing| :: listing[k].owner == uid <==> k in at
    decreases |listing|
  {
    at := [];
    if listing != [] {
      var front := listing[..|listing| - 1];
      var before := OwnedMeans(front, uid);
      at := before;
      if Last(listing).owner == uid { at := before + [|front|]; }
      forall k | 0 <= k < |listing| ensures listing[k].owner == uid <==> k in at {
        if k < |front| { assert listing[k] == front[k]; }
      }
    }
  }

  function NewestListed(listing: seq<Playbook>, uid: int): Option<Playbook> {
    Newest(StableSort(BY_CREATION, Owned(listing, uid)))
  }

  lemma ByCreationIsTotal()
    ensures TotalPreorder(BY_CREATION)
  {
  }

  /** The sort picks the playbook created after all others, wherever the listing puts it. */
  lemma NewestIsListed(listing: seq<Playbook>, uid: int, p: Playbook)
    requires p in multiset(Owned(listing, uid))
    requires forall q | q in multiset(Owned(listing, uid)) :: q == p || q.created < p.created
    ensures NewestListed(listing, uid) == Some(p)
  {
    var owned := Owned(listing, uid);
    var s := StableSort(BY_CREATION, owned);
    ByCreationIsTotal();
    SortSorts(BY_CREATION, owned);
    SortKeepsElements(BY_CREATION, owned);
    LastIsLargest(BY_CREATION, s, p);
    assert s[|s| - 1] in multiset(s);
  }

  lemma LastIsNewest(a: Agent, i: nat)
    requires RolloutInv(a) && i < |a.playbooks|
    ensures a.playbooks[i] == Last(a.playbooks) || a.playbooks[i].created < Last(a.playbooks).created
  {
    if i < |a.playbooks| - 1 { assert Follows(a.playbooks[i], a.playbooks[|a.playbooks| - 1]); }
  }

  /** For the machine's playbooks, which are in creation order, any listing of them yields the machine's newest. */
  lemma ListingOrderIsIrrelevant(a: Agent, listing: seq<Playbook>, uid: int)
    requires RolloutInv(a) && multiset(Owned(listing, uid)) == multiset(a.playbooks)
    ensures NewestListed(listing, uid) == Newest(a.playbooks)
  {
    if a.playbooks == [] {
      assert |Owned(listing, uid)| == |multiset(Owned(listing, uid))| == 0;
    } else {
      var p := Last(a.playbooks);
      assert p in multiset(a.playbooks);
      forall q | q in multiset(Owned(listing, uid)) ensures q == p || q.created < p.created {
        assert q in multiset(a.playbooks);
        var i :| 0 <= i < |a.playbooks| && a.playbooks[i] == q;
        LastIsNewest(a, i);
      }
      NewestIsListed(listing, uid, p);
    }
  }

  lemma {:induction false} OwnedAll(listing: seq<Playbook>, uid: int)
    requires forall q | q in listing :: q.owner == uid
    ensures Owned(listing, uid) == listing
  {
    if listing != [] {
      OwnedAll(listing[..|listing| - 1], uid);
    }
  }

  /** Of several playbooks created last, the one listed last is taken. */
  lemma LastOfTheLatestWins(rest: seq<Playbook>, q: Playbook)
    requires forall p | p in rest :: p.owner == q.owner && p.created <= q.created
    ensures NewestListed(rest + [q], q.owner) == Some(q)
  {
    var listing, sorted := rest + [q], StableSort(BY_CREATION, rest);
    OwnedAll(listing, q.owner);
    assert listing[..|listing| - 1] == rest;
    SortKeepsElements(BY_CREATION, rest);
    if sorted != [] {
      assert sorted[|sorted| - 1] in multiset(sorted);
      assert sorted[|sorted| - 1] in rest;
    }
  }

  /** A latest one among the elements that satisfy a condition. */
  lemma {:induction false} LatestIndex(s: seq<Playbook>, p: Playbook) returns (i: nat)
    requires exists q :: q in s && q != p
    ensures i < |s| && s[i] != p && forall q | q in s && q != p :: q.created <= s[i].created
  {
    var front, last := s[..|s| - 1], s[|s| - 1];
    assert forall q | q in s :: q in front || q == last;
    if exists q :: q in front && q != p {
      i := LatestIndex(front, p);
      assert s[i] == front[i];
      if last != p && last.created > s[i].created {
        i := |s| - 1;
      }
    } else {
      i := |s| - 1;
    }
  }

  predicate StrictlyNewest(playbooks: seq<Playbook>, p: Playbook) {
    p in playbooks && forall q | q in playbooks :: q == p || q.created < p.created
  }

  /** If p is not strictly the newest, some listing names another one. */
  lemma AnotherIsNamed(playbooks: seq<Playbook>, uid: int, p: Playbook) returns (listing: seq<Playbook>)
    requires (forall q | q in playbooks :: q.owner == uid) && !StrictlyNewest(playbooks, p)
    ensures multiset(Owned(listing, uid)) == multiset(playbooks) && NewestListed(listing, uid) != Some(p)
  {
    if p !in playbooks {
      listing := playbooks;
      OwnedAll(playbooks, uid);
      SortKeepsElements(BY_CREATION, playbooks);
      var sorted := StableSort(BY_CREATION, playbooks);
      assert sorted != [] ==> sorted[|sorted| - 1] in multiset(sorted);
    } else {
      var i := LatestIndex(playbooks, p);
      var q, rest := playbooks[i], playbooks[..i] + playbooks[i + 1..];
      listing := rest + [q];
      assert playbooks == playbooks[..i] + [q] + playbooks[i + 1..];
      OwnedAll(listing, uid);
      LastOfTheLatestWins(rest, q);
    }
  }

  /** Timestamps decide which playbook is the newest: every listing of some playbooks names p exactly when p is one of
      them and was created strictly after all others. */
  lemma NewestIsCertainExactly(playbooks: seq<Playbook>, uid: int, p: Playbook)
    requires forall q | q in playbooks :: q.owner == uid
    ensures (forall listing | multiset(Owned(listing, uid)) == multiset(playbooks) ::
               NewestListed(listing, uid) == Some(p))
            <==> StrictlyNewest(playbooks, p)
  {
    if StrictlyNewest(playbooks, p) {
      forall listing | multiset(Owned(listing, uid)) == multiset(playbooks)
        ensures NewestListed(listing, uid) == Some(p)
      {
        assert p in multiset(playbooks) && forall q | q in multiset(playbooks) :: q in playbooks;
        NewestIsListed(listing, uid, p);
      }
    } else {
      var listing := AnotherIsNamed(playbooks, uid, p);
      assert multiset(Owned(listing, uid)) == multiset(playbooks);
    }
  }

  /** Timestamps decide which playbook is the newest: of two created in the same instant, the listing order does,
      and it may name the older one. */
  lemma EqualTimestampsMisorder(older: Playbook, newer: Playbook)
    requires older.owner == newer.owner && older.created == newer.created
    ensures NewestListed([newer, older], older.owner) == Some(older)
  {
    var listing := [newer, older];
    assert listing[..1] == [newer] && [newer][..0] == [];
    assert Owned([newer], older.owner) == [newer];
    assert Owned(listing, older.owner) == [newer] + [older];
    assert StableSort(BY_CREATION, [newer]) == [newer];
    assert ([newer] + [older])[..1] == [newer];
    assert StableSort(BY_CREATION, [newer] + [older]) == Insert(BY_CREATION, [newer], older) == [newer, older];
  }

  // ---- The methods ------------------------------------------------------------------------------

  method GetPlaybooksForDeployment(listing: seq<Playbook>, uid: int) returns (result: seq<Playbook>)
    ensures result == Owned(listing, uid)
  {
    result := [];
    for i := 0 to |listing|
      invariant result == Owned(listing[..i], uid)
    {
      assert listing[..i + 1][..i] == listing[..i];
      if listing[i].owner == uid {
        result := result + [listing[i]];
      }
    }
    assert listing[..|listing|] == listing;
  }

  method SortPlaybooksByCreationTime(playbooks: array<Playbook>)
    modifies playbooks
    ensures playbooks[..] == StableSort(BY_CREATION, old(playbooks[..]))
  {
    SortInPlace(BY_CREATION, playbooks);
  }

  method GetLastPlaybook(listing: seq<Playbook>, uid: int) returns (newest: Option<Playbook>)
    ensures newest == NewestListed(listing, uid)
  {
    var playbooks := GetPlaybooksForDeployment(listing, uid);
    if |playbooks| == 0 {
      return None;
    }
    var sorted := new Playbook[|playbooks|](i requires 0 <= i < |playbooks| => playbooks[i]);
    assert sorted[..] == playbooks;
    SortPlaybooksByCreationTime(sorted);
    newest := Some(sorted[sorted.Length - 1]);
  }

  /** One deployment object and the playbooks of its API server. */
  class AgentServer {
    const uid: int
    var spec: StoredDeployment
    var generation: nat
    var finalizer: bool
    var observed: nat
    var phase: DeploymentPhase
    var listing: seq<Playbook>

    constructor (spec: StoredDeployment, uid: int)
      ensures this.spec == spec && this.uid == uid && generation == 1 && observed == 0 && phase == NoPhase
      ensures finalizer && listing == []
    {
      this.spec, this.uid, generation, finalizer, observed, phase, listing := spec, uid, 1, true, 0, NoPhase, [];
    }

    /** Creates a playbook; the caller may not hear of it. */
    method CreatePlaybook(now: int, fault: Fault) returns (ok: bool)
      modifies this`listing
      ensures ok <==> fault.NoFault? || fault.ListFails?
      ensures listing == if fault.CreateFails? then old(listing)
                         else old(listing) + [StorePlaybook(uid, now, spec.template, generation)]
    {
      if !fault.CreateFails? {
        listing := listing + [StorePlaybook(uid, now, spec.template, generation)];
      }
      ok := !fault.CreateFails? && !fault.CreateReplyLost?;
    }
  }

  /** What a pass that is not paused reports and whether it lists or creates without an error. */
  function Outcome(v: Verdict, before: DeploymentPhase, fault: Fault): DeploymentPhase {
    if fault.ListFails? then before
    else match v
      case Tell(p) => p
      case Create => if fault.NoFault? then Progressing else before
  }

  /** One uninterrupted pass. The deferred status patch stamps the generation on every path. */
  method Reconcile(server: AgentServer, now: int, fault: Fault, patchLost: bool)
    requires server.finalizer
    modifies server`listing, server`observed, server`phase
    ensures var verdict := Judge(server.spec, old(NewestListed(server.listing, server.uid)));
            && server.listing == (
              if server.spec.paused || fault.ListFails? || fault.CreateFails? || verdict.Tell?
              then old(server.listing)
              else old(server.listing) + [StorePlaybook(server.uid, now, server.spec.template, server.generation)])
            && (patchLost ==> server.observed == old(server.observed) && server.phase == old(server.phase))
            && (!patchLost ==>
                  server.observed == server.generation
                  && server.phase == if server.spec.paused then Paused else Outcome(verdict, old(server.phase), fault))
  {
    var observed, phase := server.observed, server.phase;
    observed, phase := ReconcileStatus(server, now, fault, observed, phase);
    if !patchLost {
      server.observed, server.phase := observed, phase;
    }
  }

  /** The body of the pass, up to the deferred patch. */
  method ReconcileStatus(server: AgentServer, now: int, fault: Fault, o: nat, p: DeploymentPhase)
    returns (observed: nat, phase: DeploymentPhase)
    modifies server`listing
    ensures observed == server.generation
    ensures var verdict := Judge(server.spec, old(NewestListed(server.listing, server.uid)));
            && server.listing == (
              if server.spec.paused || fault.ListFails? || fault.CreateFails? || verdict.Tell?
              then old(server.listing)
              else old(server.listing) + [StorePlaybook(server.uid, now, server.spec.template, server.generation)])
            && phase == if server.spec.paused then Paused else Outcome(verdict, p, fault)
  {
    observed, phase := server.generation, p;
    if server.spec.paused {
      phase := Paused;
      return;
    }
    if fault.ListFails? {
      return;
    }
    var newest := GetLastPlaybook(server.listing, server.uid);
    if newest.Some? && newest.value.status.execution != IsTrue && newest.value.status.failure != IsTrue {
      phase := Progressing;
      return;
    }
    if newest.Some? && newest.value.spec == server.spec.template {
      phase := PhaseOf(newest.value);
      return;
    }
    var ok := server.CreatePlaybook(now, fault);
    if ok {
      phase := Progressing;
    }
  }

  /** What a pass that read generation g decides. */
  lemma ActValue(a: Agent, now: int, fault: Fault)
    requires a.specs != [] && a.pc == Read(|a.specs|) && (a.playbooks != [] ==> Last(a.playbooks).created < now)
    ensures var d := Last(a.specs);
            var verdict := Decide(d, a.playbooks);
            var b := ActOn(a, now, fault);
            && b.specs == a.specs && b.observed == a.observed && b.phase == a.phase
            && b.pc.Report? && b.pc.generation == |a.specs|
            && b.pc.phase == (if d.paused then Paused else Outcome(verdict, a.phase, fault))
            && b.playbooks == (
              if d.paused || fault.ListFails? || fault.CreateFails? || verdict.Tell? then a.playbooks
              else a.playbooks + [StorePlaybook(0, now, d.template, |a.specs|)])
  {
  }

  /** The pass, with its calls in a row, is a run of the rollout's machine, whatever listing shows its playbooks. */
  lemma PassIsARun(a: Agent, listing: seq<Playbook>, now: int, fault: Fault, lost: bool)
    requires RolloutInv(a) && a.pc.Idle? && multiset(Owned(listing, 0)) == multiset(a.playbooks)
    requires a.playbooks != [] ==> Last(a.playbooks).created < now
    ensures var b := Run(a, [Begin, Act(now, fault), Patch(lost)]);
            var d := Last(a.specs);
            var verdict := Judge(d, NewestListed(listing, 0));
            && b.specs == a.specs && b.pc.Idle?
            && b.playbooks == (
              if d.paused || fault.ListFails? || fault.CreateFails? || verdict.Tell? then a.playbooks
              else a.playbooks + [StorePlaybook(0, now, d.template, a.Generation())])
            && (lost ==> b.observed == a.observed && b.phase == a.phase)
            && (!lost ==>
                  b.observed == a.Generation()
                  && b.phase == if d.paused then Paused else Outcome(verdict, a.phase, fault))
  {
    ListingOrderIsIrrelevant(a, listing, 0);
    RunOfThree(a, Begin, Act(now, fault), Patch(lost));
    ActValue(a.(pc := Read(|a.specs|)), now, fault);
  }

  /** The pass over a deployment marked for deletion: `marked` says which playbooks are marked already, and a delete
      call for one in `failing` returns an error. The playbooks not marked yet are deleted up to the first error. The
      test at the end is the inverse of the comment beside it: with playbooks still listed the finalizer goes, and
      without any it stays. */
  method ReconcileDelete(server: AgentServer, listed: bool, marked: set<Playbook>,
                         failing: set<Playbook>, patched: bool)
    returns (deleted: seq<Playbook>, ok: bool)
    modifies server`finalizer
    ensures old(server.finalizer) && listed ==>
              var due := Unmarked(Owned(server.listing, server.uid), marked);
              && deleted <= due && (forall p | p in deleted :: p !in failing)
              && (deleted == due <==> forall p | p in due :: p !in failing)
              && (server.finalizer <==> deleted != due || Owned(server.listing, server.uid) == [] || !patched)
              && (ok <==> deleted == due && (Owned(server.listing, server.uid) == [] || patched))
    ensures old(server.finalizer) && !listed ==> deleted == [] && server.finalizer && !ok
    ensures !old(server.finalizer) ==> deleted == [] && !server.finalizer && ok
  {
    deleted, ok := [], true;
    if !server.finalizer {
      return;
    }
    if !listed {
      return [], false;
    }
    var playbooks := GetPlaybooksForDeployment(server.listing, server.uid);
    for i := 0 to |playbooks|
      invariant deleted == Unmarked(playbooks[..i], marked) && forall p | p in deleted :: p !in failing
      invariant server.finalizer
    {
      assert playbooks[..i + 1][..i] == playbooks[..i];
      if playbooks[i] !in marked {
        UnmarkedGrows(playbooks, i + 1, marked);
        if playbooks[i] in failing {
          assert Unmarked(playbooks[..i + 1], marked) == deleted + [playbooks[i]];
          assert playbooks[i] == Unmarked(playbooks, marked)[|deleted|];
          return deleted, false;
        }
        deleted := deleted + [playbooks[i]];
      }
    }
    assert playbooks[..|playbooks|] == playbooks;
    if |playbooks| == 0 {
      return;
    }
    if !patched {
      return deleted, false;
    }
    server.finalizer := false;
  }

  function Unmarked(playbooks: seq<Playbook>, marked: set<Playbook>): seq<Playbook> {
    if playbooks == [] then []
    else if Last(playbooks) in marked then Unmarked(playbooks[..|playbooks| - 1], marked)
    else Unmarked(playbooks[..|playbooks| - 1], marked) + [Last(playbooks)]
  }

  lemma {:induction false} UnmarkedGrows(playbooks: seq<Playbook>, i: nat, marked: set<Playbook>)
    requires i <= |playbooks|
    ensures Unmarked(playbooks[..i], marked) <= Unmarked(playbooks, marked)
    decreases |playbooks|
  {
    if i < |playbooks| {
      UnmarkedGrows(playbooks[..|playbooks| - 1], i, marked);
      assert playbooks[..|playbooks| - 1][..i] == playbooks[..i];
    } else {
      assert playbooks[..i] == playbooks;
    }
  }
}

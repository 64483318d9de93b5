/**
 The two-tier replication of a PlaybookDeployment is, for the owner of the deployment, an object whose own controller
 makes the moves of ObjectStatus. An owner that creates deployments from templates never changes their agent.
 */
module DeploymentRefinement {
  import opened Common
  import opened Defaulting
  import opened Replication
  import opened ReplicationTheorems
  import Rollout = AgentRollout
  import Objects = ObjectStatus

  /** The part of a spec that comes from a template. */
  datatype Content = Content(files: Files, entrypoint: string)

  function ContentOf(s: Spec): Content { Content(s.files, s.entrypoint) }

  function PhaseText(p: Phase): string {
    match p
    case NoPhase => ""
    case Progressing => "Progressing"
    case Paused => "Paused"
    case Succeeded => "Succeeded"
    case Failed => "Failed"
  }

  /** The pass in progress has created or patched the external deployment, and knows. */
  predicate Pushing(w: World) {
    w.pc.Committing? && (w.pc.pushed || (w.status.lastSpecChecksum.None? && w.pc.status.lastSpecChecksum.Some?))
  }

  /** The agent holds a deployment whose creation is not on record. */
  predicate CreatedUnheard(w: World, agent: string) {
    && Held(w.stores, agent) != [] && w.status.lastSpecChecksum.None?
    && !(Pushing(w) && !w.pc.pushed)
  }

  function Holds(stores: Stores, agent: string): Option<Content> {
    var held := Held(stores, agent);
    if held == [] || held[0].agent.specs == [] then None
    else Some(Content(held[0].Current().template.files, held[0].Current().template.entrypoint))
  }

  function ChecksumOf(st: Status): Option<Content> {
    if st.lastSpecChecksum.None? then None else Some(ContentOf(st.lastSpecChecksum.value))
  }

  /** The deployment as its owner sees it. */
  function View(w: World, role: string, agent: string): Objects.Managed<Content>
    requires Reads(w)
  {
    Objects.Managed(
      Objects.PlaybookDeploymentTemplate, role, ContentOf(Last(w.specs)), w.Generation(),
      w.status.synced, PhaseText(w.status.externalPhase), ChecksumOf(w.status), w.status.observed,
      if w.pc.Idle? then None else Some(Objects.Revision(w.pc.generation, ContentOf(SpecRead(w)))),
      Pushing(w), Holds(w.stores, agent), w.unrecorded || CreatedUnheard(w, agent),
      if 0 < w.confirmed <= |w.specs| then Some(ContentOf(w.specs[w.confirmed - 1])) else None)
  }

  /** What a pass that is about to commit has done. */
  predicate Concluded(w: World)
    requires Reads(w) && w.pc.Committing?
  {
    var held := Held(w.stores, SpecRead(w).agentRef);
    match w.pc.kind
    case FullPass =>
      && |held| == 1 && Carries(held[0].Current(), SpecRead(w))
      && (Pushing(w) && !w.pc.pushed ==> !w.unrecorded)
      && if Pushing(w) then w.pc.status.synced == IsFalse && w.pc.status.lastSpecChecksum == Some(SpecRead(w))
         else w.pc.status.synced != Unset && w.pc.status.lastSpecChecksum == w.status.lastSpecChecksum
    case FailedPass =>
      !w.pc.pushed && w.pc.status.synced == IsFalse && w.pc.status.lastSpecChecksum == w.status.lastSpecChecksum
    case _ => !w.pc.pushed && w.pc.status == w.status
  }

  predicate OneAgent(w: World, agent: string) { forall s | s in w.specs :: s.agentRef == agent }

  predicate Local(w: World, agent: string)
    requires Reads(w)
  {
    && OneAgent(w, agent) && w.confirmed <= w.Generation()
    && (w.unrecorded ==> Held(w.stores, agent) != []) && (w.pc.Committing? ==> Concluded(w))
  }

  ghost predicate Shape(w: World, agent: string) { Base(w) && Local(w, agent) }

  /** The spec keeps its agent. */
  predicate Stays(s: Step, agent: string) { s.Edit? ==> s.spec.agentRef == agent }

  lemma NewView(s: Spec, role: string)
    ensures Shape(NewWorld(s), s.agentRef)
    ensures View(NewWorld(s), role, s.agentRef)
         == Objects.NewManaged(Objects.PlaybookDeploymentTemplate, role, ContentOf(s))
  {
    NewBase(s);
  }

  /** The move that a step of the replication is to the owner, other than an edit. */
  function Move(w: World, s: Step): Objects.OwnStep {
    match s
    case Begin(_) => Objects.Look
    case Create(_, result) =>
      if !w.pc.Creating? || result.Rejected? then Objects.Rest else Objects.Push(result.Applied?)
    case Patch(result) =>
      if !w.pc.Patching? || result.Rejected? then Objects.Rest else Objects.Push(result.Applied?)
    case Crash => Objects.Drop
    case Commit(lost) => if !w.pc.Committing? then Objects.Rest else if lost then Objects.Drop else Stored(w)
    case _ => Objects.Rest
  }

  /** What a pass stores. */
  function Stored(w: World): Objects.OwnStep
    requires w.pc.Committing?
  {
    var phase := PhaseText(w.pc.status.externalPhase);
    match w.pc.kind
    case FullPass => if Pushing(w) then Objects.Record(phase) else Objects.Confirm(w.pc.status.synced, phase)
    case FailedPass => Objects.Fail(phase)
    case _ => Objects.Stamp
  }

  lemma BeginKeepsLocal(w: World, reach: Reach, agent: string)
    requires Linked(w) && Local(w, agent) && Reads(Apply(w, Begin(reach)))
    ensures Local(Apply(w, Begin(reach)), agent)
  {
  }

  lemma BeginIsLook(w: World, reach: Reach, role: string, agent: string)
    requires Linked(w) && Local(w, agent) && Reads(Apply(w, Begin(reach)))
    ensures View(Apply(w, Begin(reach)), role, agent) == Objects.Own(View(w, role, agent), Move(w, Begin(reach)))
  {
  }

  lemma FindKeepsLocal(w: World, listed: bool, agent: string)
    requires Linked(w) && Local(w, agent) && Reads(Apply(w, Find(listed))) && AtMostOneEach(w.stores)
    ensures Local(Apply(w, Find(listed)), agent)
  {
    if w.pc.Began? {
      var v := Apply(w, Find(listed));
      assert v == w.(pc := AfterList(w, listed));
      if v.pc.Committing? { ListIsConcluded(w, listed); }
    }
  }

  lemma ListIsConcluded(w: World, listed: bool)
    requires Reads(w) && w.pc.Began? && AfterList(w, listed).Committing?
    ensures Concluded(w.(pc := AfterList(w, listed)))
  {
  }

  lemma FindIsHidden(w: World, listed: bool, role: string, agent: string)
    requires Linked(w) && Local(w, agent) && Reads(Apply(w, Find(listed))) && AtMostOneEach(w.stores)
    ensures View(Apply(w, Find(listed)), role, agent) == View(w, role, agent)
  {
  }

  lemma CreateKeepsLocal(w: World, id: nat, result: WriteResult, agent: string)
    requires Linked(w) && Local(w, agent) && Reads(Apply(w, Create(id, result)))
    ensures Local(Apply(w, Create(id, result)), agent)
  {
  }

  lemma CreateIsPush(w: World, id: nat, result: WriteResult, role: string, agent: string)
    requires Linked(w) && Local(w, agent) && Reads(Apply(w, Create(id, result)))
    ensures View(Apply(w, Create(id, result)), role, agent)
         == Objects.Own(View(w, role, agent), Move(w, Create(id, result)))
  {
  }

  lemma PatchKeepsLocal(w: World, result: WriteResult, agent: string)
    requires Linked(w) && Local(w, agent) && Reads(Apply(w, Patch(result)))
    ensures Local(Apply(w, Patch(result)), agent)
  {
  }

  lemma PatchParts(w: World, result: WriteResult, agent: string)
    requires Linked(w) && Local(w, agent) && w.pc.Patching?
    ensures var v := Apply(w, Patch(result));
            && v == w.(stores := v.stores, pc := v.pc, unrecorded := w.unrecorded || result.ReplyLost?)
            && v.pc.Committing? && v.pc.generation == w.pc.generation && Pushing(v) == result.Applied?
            && Holds(v.stores, agent) == (if result.Rejected? then Holds(w.stores, agent)
                                          else Some(ContentOf(SpecRead(w))))
            && CreatedUnheard(v, agent) == CreatedUnheard(w, agent)
  {
    PatchValue(w, result);
    assert SpecRead(w) in w.specs;
  }

  lemma PatchIsPush(w: World, result: WriteResult, role: string, agent: string)
    requires Linked(w) && Local(w, agent) && w.pc.Patching? && Reads(Apply(w, Patch(result)))
    ensures View(Apply(w, Patch(result)), role, agent)
         == if result.Rejected? then View(w, role, agent)
            else Objects.Own(View(w, role, agent), Objects.Push(result.Applied?))
  {
    PatchParts(w, result, agent);
  }

  lemma CommitKeepsLocal(w: World, lost: bool, agent: string)
    requires Linked(w) && Local(w, agent) && Reads(Apply(w, Commit(lost)))
    ensures Local(Apply(w, Commit(lost)), agent)
  {
  }

  lemma LostCommitIsDrop(w: World, role: string, agent: string)
    requires Linked(w) && Local(w, agent) && w.pc.Committing? && Reads(Apply(w, Commit(true)))
    ensures View(Apply(w, Commit(true)), role, agent) == Objects.Own(View(w, role, agent), Objects.Drop)
  {
  }

  lemma CommitParts(w: World, agent: string)
    requires Linked(w) && Local(w, agent) && w.pc.Committing?
    ensures var v := Apply(w, Commit(false));
            && v.specs == w.specs && v.stores == w.stores && v.pc.Idle? && !Pushing(v)
            && v.status == w.pc.status.(observed := w.pc.generation)
            && (v.unrecorded || CreatedUnheard(v, agent)
                <==> !Pushing(w) && (w.unrecorded || CreatedUnheard(w, agent)))
            && v.confirmed == if w.pc.kind.FullPass? && w.pc.status.synced == IsTrue then w.pc.generation
                              else w.confirmed
  {
    CommitValue(w);
    assert SpecRead(w) in w.specs;
  }

  lemma CommitIsStored(w: World, role: string, agent: string)
    requires Linked(w) && Local(w, agent) && w.pc.Committing? && Reads(Apply(w, Commit(false)))
    ensures View(Apply(w, Commit(false)), role, agent) == Objects.Own(View(w, role, agent), Stored(w))
  {
    if w.pc.kind.FullPass? { FullPassIsStored(w, role, agent); } else { OtherPassIsStored(w, role, agent); }
  }

  lemma FullPassIsStored(w: World, role: string, agent: string)
    requires Linked(w) && Local(w, agent) && w.pc.Committing? && w.pc.kind.FullPass? && Reads(Apply(w, Commit(false)))
    ensures View(Apply(w, Commit(false)), role, agent) == Objects.Own(View(w, role, agent), Stored(w))
  {
    CommitParts(w, agent);
    assert SpecRead(w) in w.specs;
  }

  lemma OtherPassIsStored(w: World, role: string, agent: string)
    requires Linked(w) && Local(w, agent) && w.pc.Committing? && !w.pc.kind.FullPass? && Reads(Apply(w, Commit(false)))
    ensures View(Apply(w, Commit(false)), role, agent) == Objects.Own(View(w, role, agent), Stored(w))
  {
    CommitParts(w, agent);
  }

  lemma CrashKeepsLocal(w: World, agent: string)
    requires Linked(w) && Local(w, agent) && Reads(Apply(w, Crash))
    ensures Local(Apply(w, Crash), agent)
  {
  }

  lemma CrashIsDrop(w: World, role: string, agent: string)
    requires Linked(w) && Local(w, agent) && Reads(Apply(w, Crash))
    ensures View(Apply(w, Crash), role, agent) == Objects.Own(View(w, role, agent), Move(w, Crash))
  {
  }

  /** What the owner sees of the agent is which deployment it holds. */
  lemma ViewOfStores(w: World, u: Stores, role: string, agent: string)
    requires Reads(w) && Reads(w.(stores := u)) && Holds(u, agent) == Holds(w.stores, agent)
    requires Held(u, agent) == [] <==> Held(w.stores, agent) == []
    ensures View(w.(stores := u), role, agent) == View(w, role, agent)
  {
  }

  lemma LocalOfStores(w: World, u: Stores, agent: string)
    requires Reads(w) && Reads(w.(stores := u)) && Local(w, agent)
    requires var h, k := Held(w.stores, agent), Held(u, agent);
             |k| == |h| && (|h| == 1 ==> k[0].agent.specs == h[0].agent.specs)
    ensures Local(w.(stores := u), agent)
  {
  }

  lemma AgentStepIsHidden(w: World, at: string, step: Rollout.Step, role: string, agent: string)
    requires Shape(w, agent) && Reads(Apply(w, AgentStep(at, step)))
    ensures Local(Apply(w, AgentStep(at, step)), agent)
    ensures View(Apply(w, AgentStep(at, step)), role, agent) == View(w, role, agent)
  {
    if |Held(w.stores, at)| == 1 && !step.Push? {
      var u := Apply(w, AgentStep(at, step)).stores;
      AgentStepIsLater(w.stores[at][0], step);
      LocalOfStores(w, u, agent);
      ViewOfStores(w, u, role, agent);
    }
  }

  lemma EditIsWithSpec(w: World, s: Spec, role: string, agent: string)
    requires Linked(w) && Local(w, agent) && s.agentRef == agent && s != Last(w.specs)
    ensures Reads(Apply(w, Edit(s))) && Local(Apply(w, Edit(s)), agent)
    ensures View(Apply(w, Edit(s)), role, agent) == View(w, role, agent).WithSpec(ContentOf(s))
  {
  }

  lemma StepKeepsShape(w: World, s: Step, agent: string)
    requires Shape(w, agent) && Stays(s, agent)
    ensures Shape(Apply(w, s), agent)
  {
    StepKeepsBase(w, s);
    match s
    case Edit(spec) => if spec != Last(w.specs) { EditIsWithSpec(w, spec, "", agent); }
    case Begin(reach) => BeginKeepsLocal(w, reach, agent);
    case Find(listed) => FindKeepsLocal(w, listed, agent);
    case Create(id, result) => CreateKeepsLocal(w, id, result, agent);
    case Patch(result) => PatchKeepsLocal(w, result, agent);
    case Commit(lost) => CommitKeepsLocal(w, lost, agent);
    case Crash => CrashKeepsLocal(w, agent);
    case AgentStep(at, step) => AgentStepIsHidden(w, at, step, "", agent);
  }

  lemma RestIsHidden(o: Objects.Managed<Content>)
    ensures Objects.Own(o, Objects.Rest) == o
  {
  }

  lemma CommitIsMove(w: World, lost: bool, role: string, agent: string)
    requires Linked(w) && Local(w, agent) && Reads(Apply(w, Commit(lost)))
    ensures View(Apply(w, Commit(lost)), role, agent) == Objects.Own(View(w, role, agent), Move(w, Commit(lost)))
  {
    if w.pc.Committing? {
      if lost { LostCommitIsDrop(w, role, agent); } else { CommitIsStored(w, role, agent); }
    }
  }

  lemma PatchIsMove(w: World, result: WriteResult, role: string, agent: string)
    requires Linked(w) && Local(w, agent) && Reads(Apply(w, Patch(result)))
    ensures View(Apply(w, Patch(result)), role, agent) == Objects.Own(View(w, role, agent), Move(w, Patch(result)))
  {
    if w.pc.Patching? { PatchIsPush(w, result, role, agent); }
  }

  /** A step of the replication, other than an edit, is a move of the object's own controller. */
  lemma StepIsMove(w: World, s: Step, role: string, agent: string)
    requires Shape(w, agent) && !s.Edit? && Reads(Apply(w, s))
    ensures View(Apply(w, s), role, agent) == Objects.Own(View(w, role, agent), Move(w, s))
  {
    match s
    case Begin(reach) => BeginIsLook(w, reach, role, agent);
    case Find(listed) => FindIsHidden(w, listed, role, agent); RestIsHidden(View(w, role, agent));
    case Create(id, result) => CreateIsPush(w, id, result, role, agent);
    case Patch(result) => PatchIsMove(w, result, role, agent);
    case Commit(lost) => CommitIsMove(w, lost, role, agent);
    case Crash => CrashIsDrop(w, role, agent);
    case AgentStep(at, step) => AgentStepIsHidden(w, at, step, role, agent); RestIsHidden(View(w, role, agent));
  }

  // ---- Runs -------------------------------------------------------------------------------------

  /** What happens to the object: its own controller moves, or its owner rewrites the specification. */
  datatype Change = Moved(step: Objects.OwnStep) | Rewritten(content: Content)

  function Changed(o: Objects.Managed<Content>, changes: seq<Change>): Objects.Managed<Content>
    decreases |changes|
  {
    if changes == [] then o
    else
      match changes[0]
      case Moved(step) => Changed(Objects.Own(o, step), changes[1..])
      case Rewritten(content) => Changed(o.WithSpec(content), changes[1..])
  }

  /** Every run of the two tiers is, for the owner, a history of such changes of one object. */
  lemma {:induction false} RunIsHistory(w: World, steps: seq<Step>, role: string, agent: string)
    returns (changes: seq<Change>)
    requires Shape(w, agent) && forall s | s in steps :: Stays(s, agent)
    ensures Shape(Run(w, steps), agent)
    ensures View(Run(w, steps), role, agent) == Changed(View(w, role, agent), changes)
    decreases |steps|
  {
    changes := [];
    if steps != [] {
      var s := steps[0];
      assert s in steps;
      StepKeepsShape(w, s, agent);
      var rest := RunIsHistory(Apply(w, s), steps[1..], role, agent);
      if !s.Edit? {
        StepIsMove(w, s, role, agent);
        changes := [Moved(Move(w, s))] + rest;
      } else if s.spec != Last(w.specs) {
        EditIsWithSpec(w, s.spec, role, agent);
        changes := [Rewritten(ContentOf(s.spec))] + rest;
      } else {
        changes := rest;
      }
      assert changes != rest ==> changes[1..] == rest;
    }
  }

  lemma {:induction false} HistoryFits(o: Objects.Managed<Content>, changes: seq<Change>)
    requires Objects.Fits(o) && o.kind.PlaybookDeploymentTemplate?
    ensures Objects.Fits(Changed(o, changes))
    decreases |changes|
  {
    if changes != [] {
      match changes[0]
      case Moved(step) =>
        Objects.OwnKeepsFits(o, step);
        HistoryFits(Objects.Own(o, step), changes[1..]);
      case Rewritten(content) => HistoryFits(o.WithSpec(content), changes[1..]);
    }
  }

  lemma ViewFits(s: Spec, steps: seq<Step>, role: string)
    requires forall e | e in steps :: Stays(e, s.agentRef)
    ensures var w := Run(NewWorld(s), steps); Shape(w, s.agentRef) && Objects.Fits(View(w, role, s.agentRef))
  {
    NewView(s, role);
    var changes := RunIsHistory(NewWorld(s), steps, role, s.agentRef);
    HistoryFits(View(NewWorld(s), role, s.agentRef), changes);
  }

  /** In every run: a success on record that is of the present specification was run at the agent, unless the phase
      confirmed there had not been decided for its generation. With the last push on record that is, to the owner, a
      success beside the checksum of the present specification. */
  lemma PresentSuccessRan(s: Spec, steps: seq<Step>, role: string)
    requires forall e | e in steps :: Stays(e, s.agentRef)
    ensures var w := Run(NewWorld(s), steps);
            var o := View(w, role, s.agentRef);
            && Objects.Fits(o)
            && (Objects.SucceededForPresent(o) && !w.misled ==> RanAt(w.stores, Last(w.specs)))
            && (Objects.Done(o) && !o.unrecorded ==>
                  (Objects.SucceededForPresent(o) <==> o.checksum == Some(ContentOf(Last(w.specs)))))
  {
    var w := Run(NewWorld(s), steps);
    ViewFits(s, steps, role);
    SyncedAndSucceededMeansRun(s, steps);
    ViewMeans(w, role, s.agentRef);
  }

  lemma ViewMeans(w: World, role: string, agent: string)
    requires Reads(w) && OneAgent(w, agent) && Objects.Fits(View(w, role, agent))
    requires Success(w.status) && !w.misled ==>
               0 < w.confirmed <= |w.specs| && RanAt(w.stores, w.specs[w.confirmed - 1])
    ensures var o := View(w, role, agent);
            && (Objects.SucceededForPresent(o) && !w.misled ==> RanAt(w.stores, Last(w.specs)))
            && (Objects.Done(o) && !o.unrecorded ==>
                  (Objects.SucceededForPresent(o) <==> o.checksum == Some(ContentOf(Last(w.specs)))))
  {
    var o := View(w, role, agent);
    if Objects.Done(o) && !o.unrecorded { Objects.SuccessIsPresentExactly(o); }
    if Objects.SucceededForPresent(o) && !w.misled { ConfirmedContentRan(w, agent, role); }
  }

  lemma ConfirmedContentRan(w: World, agent: string, role: string)
    requires Reads(w) && OneAgent(w, agent) && Objects.SucceededForPresent(View(w, role, agent))
    requires 0 < w.confirmed <= |w.specs| && RanAt(w.stores, w.specs[w.confirmed - 1])
    ensures RanAt(w.stores, Last(w.specs))
  {
    assert w.specs[w.confirmed - 1] in w.specs && Last(w.specs) in w.specs;
    SameContentRan(w.stores, w.specs[w.confirmed - 1], Last(w.specs));
  }

  lemma SameContentRan(stores: Stores, s: Spec, t: Spec)
    requires RanAt(stores, s) && ContentOf(s) == ContentOf(t) && s.agentRef == t.agentRef
    ensures RanAt(stores, t)
  {
  }
}

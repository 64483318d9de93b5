/**
 The management PlaybookDeployment controller
 (cluster-api-provider-kubeforce/controllers/playbookdeployment_controller.go) together with the agents it pushes to.

 `World` holds one management deployment and everything the agents store for it. `Apply` makes one API call of one
 reconcile, one user edit, or one step of an agent; all of them interleave freely. A reconcile reads the deployment,
 lists the external deployments at the agent that its spec names, writes at most once, and commits its status.
 */
module Replication {
  import opened Common
  import opened Defaulting
  import Rollout = AgentRollout

  type Phase = Rollout.DeploymentPhase

  /** The management spec. Its checksum is taken to be injective, so the spec stands for its own checksum. */
  datatype Spec = Spec(
    agentRef: string, labels: map<string, string>, annotations: map<string, string>, files: Files,
    entrypoint: string, revisionHistoryLimit: Option<int>, paused: bool)

  /** `externalPhase` is NoPhase while the source's string is empty; `failure` says that a failure reason is set. */
  datatype Status = Status(
    externalName: Option<Name>, externalPhase: Phase, synced: Condition, lastSpecChecksum: Option<Spec>,
    failure: bool, observed: nat)

  const NEW_STATUS := Status(None, Rollout.NoPhase, Unset, None, false, 0)

  datatype External = External(name: Name, agent: Rollout.Agent)
  {
    function Current(): DeploymentSpec
      requires agent.specs != []
    {
      Last(agent.specs)
    }
  }

  function ToExternal(s: Spec): DeploymentSpec {
    DeploymentSpec(s.labels, s.annotations, PlaybookSpec(None, s.files, s.entrypoint), s.revisionHistoryLimit, s.paused)
  }

  /** The external spec with every field that the management spec determines. */
  function Overlay(d: DeploymentSpec, s: Spec): DeploymentSpec {
    DeploymentSpec(s.labels, s.annotations, PlaybookSpec(d.template.policy, s.files, s.entrypoint),
                   if s.revisionHistoryLimit.Some? then s.revisionHistoryLimit else d.revisionHistoryLimit, s.paused)
  }

  /** An update computed from s against d has an empty diff. */
  predicate Carries(d: DeploymentSpec, s: Spec) {
    Overlay(d, s) == d
  }

  /** The deployment spec says what the management spec says, field by field; a history limit that the management spec
      leaves open may be anything, and so may the policy, of which it knows nothing. */
  predicate Agrees(d: DeploymentSpec, s: Spec) {
    && d.labels == s.labels && d.annotations == s.annotations && d.paused == s.paused
    && d.template.files == s.files && d.template.entrypoint == s.entrypoint
    && (s.revisionHistoryLimit.Some? ==> d.revisionHistoryLimit == s.revisionHistoryLimit)
  }

  /** Nothing is left to push exactly when the fields agree. */
  lemma CarriesMeans(d: DeploymentSpec, s: Spec)
    ensures Carries(d, s) <==> Agrees(d, s)
  {
  }

  /** A push makes the fields agree, and leaves alone what the management spec leaves open. */
  lemma OverlayMeans(d: DeploymentSpec, s: Spec)
    ensures var f := Overlay(d, s);
            && Agrees(f, s) && f.template.policy == d.template.policy
            && (s.revisionHistoryLimit.None? ==> f.revisionHistoryLimit == d.revisionHistoryLimit)
  {
  }

  /** A new external deployment agrees, and what the management spec leaves open has the API's defaults. */
  lemma CreationMeans(s: Spec)
    ensures var d := Rollout.StoreDeployment(ToExternal(s));
            && Agrees(d, s) && d.template.policy == Some(Policy(Some(TEN_MINUTES), Some(3)))
            && (s.revisionHistoryLimit.None? ==> d.revisionHistoryLimit == Some(10))
  {
  }

  // ---- One pass ---------------------------------------------------------------------------------

  /** What reaching the agent meets. */
  datatype Reach = AgentMissing | AgentPaused | AgentUnhealthy | ClientFails | Reachable

  predicate FastPath(st: Status, s: Spec) {
    !st.externalPhase.NoPhase? && !st.externalPhase.Progressing?
    && st.synced == IsTrue && st.lastSpecChecksum == Some(s)
  }

  function Failed(st: Status): Status {
    st.(failure := true, synced := IsFalse)
  }

  function See(st: Status, e: External): Status {
    st.(externalName := Some(e.name), externalPhase := e.agent.phase)
  }

  /** The external deployment carries the spec: synced once its controller has observed it. */
  function Confirm(st: Status, e: External): Status {
    See(st, e).(failure := false, synced := if e.agent.Generation() == e.agent.observed then IsTrue else IsFalse)
  }

  function Pushed(st: Status, s: Spec, r: WriteResult): Status {
    if r.Applied? then st.(failure := false, lastSpecChecksum := Some(s), synced := IsFalse) else Failed(st)
  }

  function Created(st: Status, s: Spec, name: Name, r: WriteResult): Status {
    if r.Applied? then st.(lastSpecChecksum := Some(s), externalName := Some(name), failure := false, synced := IsFalse)
    else Failed(st)
  }

  datatype Plan = Stop(status: Status) | DoCreate | DoPatch(status: Status)

  /** After the list call: stop with a status, or write. */
  function PlanAfterList(st: Status, s: Spec, listing: seq<External>, listed: bool): Plan
    requires forall i | 0 <= i < |listing| :: listing[i].agent.specs != []
  {
    if !listed || |listing| > 1 then Stop(Failed(st))
    else if |listing| == 0 then (if st.externalName.Some? then Stop(Failed(st)) else DoCreate)
    else
      var e := listing[0];
      if st.externalName.Some? && st.externalName != Some(e.name) then Stop(Failed(st))
      else if Carries(e.Current(), s) then Stop(Confirm(st, e))
      else DoPatch(See(st, e))
  }

  function CreateAt(listing: seq<External>, s: Spec, name: Name): seq<External> {
    listing + [External(name, Rollout.New(ToExternal(s)))]
  }

  function PatchAt(listing: seq<External>, s: Spec): seq<External>
    requires |listing| == 1 && listing[0].agent.specs != []
  {
    var e := listing[0];
    [e.(agent := Rollout.Apply(e.agent, Rollout.Push(Overlay(e.Current(), s))))]
  }

  // ---- The machine ------------------------------------------------------------------------------

  /** How a pass ended: by the early return, under a paused agent, by confirming or pushing, or with a failure. */
  datatype PassKind = FastPass | PausedPass | FullPass | FailedPass

  /** What each agent stores for the management deployment, under its labels. */
  type Stores = map<string, seq<External>>

  /** The reconcile in progress, with the generation it read. `pushed`: it changed the external spec; `misled`: it
      confirmed an external phase that was not decided for the external generation. */
  datatype Pc =
    | Idle
    | Began(generation: nat)
    | Creating(generation: nat)
    | Patching(generation: nat, status: Status)
    | Committing(generation: nat, status: Status, kind: PassKind, pushed: bool, misled: bool)

  /** `specs` is the history of user specs. The last four fields are history as well:
      - `confirmed`: the generation of the pass that last set Synced to true;
      - `misled`: the phase on record was confirmed by such a misled pass;
      - `unseen`: a pass over a paused agent stamped a generation that the status had not observed;
      - `unrecorded`: a push took effect, and neither its checksum nor that of a later push is on record (the reply
        or the status patch was lost). */
  datatype World = World(
    specs: seq<Spec>, status: Status, stores: Stores, pc: Pc,
    confirmed: nat, misled: bool, unseen: bool, unrecorded: bool)
  {
    function Generation(): nat { |specs| }
  }

  datatype Step =
    | Edit(spec: Spec)
    | Begin(reach: Reach)
    | Find(listed: bool)
    | Create(id: nat, result: WriteResult)
    | Patch(result: WriteResult)
    | Commit(lost: bool)
    | Crash
    | AgentStep(agent: string, step: Rollout.Step)

  function NewWorld(s: Spec): World {
    World([s], NEW_STATUS, map[], Idle, 0, false, false, false)
  }

  predicate Reads(w: World) {
    && w.specs != []
    && (!w.pc.Idle? ==> 0 < w.pc.generation <= |w.specs|)
    && (forall a | a in w.stores :: forall i | 0 <= i < |w.stores[a]| :: w.stores[a][i].agent.specs != [])
  }

  /** The spec of the reconcile in progress. */
  function SpecRead(w: World): Spec
    requires Reads(w) && !w.pc.Idle?
  {
    w.specs[w.pc.generation - 1]
  }

  function Apply(w: World, s: Step): World
    requires Reads(w)
  {
    match s
    case Edit(spec) => if spec == Last(w.specs) then w else w.(specs := w.specs + [spec])
    case Begin(reach) => if w.pc.Idle? then w.(pc := BeginPass(w.status, Last(w.specs), |w.specs|, reach)) else w
    case Find(listed) => if w.pc.Began? then w.(pc := AfterList(w, listed)) else w
    case Create(id, result) =>
      if !w.pc.Creating? then w
      else
        var g, spec := w.pc.generation, SpecRead(w);
        var held, name := Held(w.stores, spec.agentRef), Name(spec.agentRef, id);
        if exists e | e in held :: e.name == name then w
        else
          w.(stores := if result.Rejected? then w.stores else w.stores[spec.agentRef := CreateAt(held, spec, name)],
             pc := Committing(g, Created(w.status, spec, name, result),
                                if result.Applied? then FullPass else FailedPass,
                              false, false))
    case Patch(result) =>
      if !w.pc.Patching? || |Held(w.stores, SpecRead(w).agentRef)| != 1 then w
      else
        var g, spec := w.pc.generation, SpecRead(w);
        w.(stores := if result.Rejected? then w.stores
                     else w.stores[spec.agentRef := PatchAt(Held(w.stores, spec.agentRef), spec)],
           pc := Committing(g, Pushed(w.pc.status, spec, result), if result.Applied? then FullPass else FailedPass,
                            result.Applied?, false),
           unrecorded := w.unrecorded || result.ReplyLost?)
    case Commit(lost) =>
      if !w.pc.Committing? then w
      else if lost then w.(pc := Idle, unrecorded := w.unrecorded || w.pc.pushed)
      else
        w.(status := w.pc.status.(observed := w.pc.generation), pc := Idle,
           confirmed := if w.pc.kind.FullPass? && w.pc.status.synced == IsTrue then w.pc.generation else w.confirmed,
           misled := MisledBy(w),
           unseen := w.pc.kind.PausedPass? && (w.unseen || w.status.observed != w.pc.generation),
           unrecorded := w.unrecorded && !w.pc.pushed)
    case Crash => w.(pc := Idle, unrecorded := w.unrecorded || (w.pc.Committing? && w.pc.pushed))
    case AgentStep(agent, step) =>
      if |Held(w.stores, agent)| != 1 || step.Push? then w
      else
        var e := w.stores[agent][0];
        w.(stores := w.stores[agent := [e.(agent := Rollout.Apply(e.agent, step))]])
  }

  function AfterList(w: World, listed: bool): Pc
    requires Reads(w) && w.pc.Began?
  {
    var g, held := w.pc.generation, Held(w.stores, SpecRead(w).agentRef);
    match PlanAfterList(w.status, SpecRead(w), held, listed)
    case Stop(st) =>
      if st.failure then Committing(g, st, FailedPass, false, false)
      else Committing(g, st, FullPass, false, Misleading(held))
    case DoCreate => Creating(g)
    case DoPatch(st) => Patching(g, st)
  }

  /** The phase that a listed external deployment shows was not decided for its present generation. */
  predicate Misleading(held: seq<External>) {
    held != [] && held[0].agent.decided != held[0].agent.Generation()
  }

  /** Whether the status about to be committed rests on a misleading phase. */
  predicate MisledBy(w: World)
    requires w.pc.Committing?
  {
    if w.pc.kind.FastPass? || w.pc.kind.PausedPass? then w.misled else w.pc.misled
  }

  function BeginPass(st: Status, s: Spec, g: nat, reach: Reach): Pc {
    if FastPath(st, s) then Committing(g, st, FastPass, false, false)
    else match reach
      case Reachable => Began(g)
      case AgentPaused => Committing(g, st, PausedPass, false, false)
      case _ => Committing(g, Failed(st), FailedPass, false, false)
  }

  // ---- Invariants -------------------------------------------------------------------------------

  /** The agent has run, without an error, a playbook with these files and this entrypoint. */
  ghost predicate RanFor(e: External, s: Spec) {
    exists i :: 0 <= i < |e.agent.playbooks| && e.agent.playbooks[i].Executed()
                && e.agent.playbooks[i].spec.files == s.files && e.agent.playbooks[i].spec.entrypoint == s.entrypoint
  }

  /** The same at the agent that a spec names. */
  ghost predicate RanAt(stores: Stores, s: Spec) {
    |Held(stores, s.agentRef)| == 1 && RanFor(Held(stores, s.agentRef)[0], s)
  }

  /** A status names an external deployment that exists or none, and its checksum is of a spec for that one's agent. */
  predicate NamesIt(st: Status, stores: Stores) {
    && (st.externalName.Some? ==>
          |Held(stores, st.externalName.value.agent)| == 1
          && Held(stores, st.externalName.value.agent)[0].name == st.externalName.value)
    && (st.synced == IsTrue ==> st.externalName.Some? && !st.failure)
    && (st.lastSpecChecksum.Some? ==>
          st.externalName.Some? && st.lastSpecChecksum.value.agentRef == st.externalName.value.agent)
  }

  /** The external deployment that a status names. */
  function Named(st: Status, stores: Stores): External
    requires NamesIt(st, stores) && st.externalName.Some?
  {
    Held(stores, st.externalName.value.agent)[0]
  }

  /** What the kind of a pass says about the status it is about to commit. */
  predicate KindFits(st: Status, pc: Pc)
    requires pc.Committing?
  {
    && (pc.kind.FastPass? || pc.kind.PausedPass? ==> pc.status == st)
    && (pc.kind.FailedPass? || pc.pushed ==> pc.status.synced == IsFalse)
    && (pc.kind.FastPass? ==> st.synced == IsTrue)
    && (st.externalName.Some? ==> pc.status.externalName == st.externalName)
  }

  /** An agent holds at most one external deployment, under a name made for it. */
  predicate AtMostOneEach(stores: Stores) {
    forall a | a in stores :: |stores[a]| <= 1 && (|stores[a]| == 1 ==> stores[a][0].name.agent == a)
  }

  /** Every status names an external deployment or none, and the pass in progress knows what it read. */
  predicate Linked(w: World) {
    && Reads(w)
    && NamesIt(w.status, w.stores)
    && (w.pc.Creating? ==> Held(w.stores, SpecRead(w).agentRef) == [] && w.status.externalName.None?)
    && (w.pc.Patching? ==>
          var held := Held(w.stores, SpecRead(w).agentRef);
          && |held| == 1 && (w.status.externalName.Some? ==> w.status.externalName == Some(held[0].name))
          && w.pc.status == w.status.(externalName := Some(held[0].name), externalPhase := w.pc.status.externalPhase))
    && (w.pc.Committing? ==> NamesIt(w.pc.status, w.stores) && KindFits(w.status, w.pc))
  }

  /** The management side, with at most one external deployment an agent. */
  predicate Core(w: World) {
    && Linked(w)
    && AtMostOneEach(w.stores)
    && w.status.observed <= w.Generation()
    && (!w.pc.Idle? ==> w.status.observed <= w.pc.generation)
  }

  ghost predicate AgentsInOrder(stores: Stores) {
    forall a | a in stores :: |stores[a]| == 1 ==> Rollout.Inv(stores[a][0].agent)
  }

  ghost predicate Base(w: World) {
    Core(w) && AgentsInOrder(w.stores)
  }

  lemma NewBase(s: Spec)
    ensures Base(NewWorld(s)) && Core(NewWorld(s))
  {
  }

  lemma CreateKeepsCore(w: World, id: nat, result: WriteResult)
    requires Core(w)
    ensures Core(Apply(w, Create(id, result)))
  {
  }

  lemma PatchKeepsCore(w: World, result: WriteResult)
    requires Core(w)
    ensures Core(Apply(w, Patch(result)))
  {
  }

  lemma FindKeepsCore(w: World, listed: bool)
    requires Core(w)
    ensures Core(Apply(w, Find(listed)))
  {
    if w.pc.Began? {
      var held := Held(w.stores, SpecRead(w).agentRef);
      assert held != [] ==> SpecRead(w).agentRef in w.stores;
      FoundIsLinked(w, listed);
    }
  }

  lemma FoundIsLinked(w: World, listed: bool)
    requires Linked(w) && w.pc.Began?
    requires var held := Held(w.stores, SpecRead(w).agentRef);
             held == [] || (|held| == 1 && held[0].name.agent == SpecRead(w).agentRef)
    ensures Linked(Apply(w, Find(listed)))
  {
  }

  lemma AgentStepKeepsCore(w: World, agent: string, step: Rollout.Step)
    requires Core(w)
    ensures Core(Apply(w, AgentStep(agent, step)))
  {
    if |Held(w.stores, agent)| == 1 && !step.Push? {
      var e := w.stores[agent][0];
      NewAgentKeepsCore(w, agent, e.(agent := Rollout.Apply(e.agent, step)));
    }
  }

  lemma NewAgentKeepsCore(w: World, agent: string, e: External)
    requires Core(w) && |Held(w.stores, agent)| == 1 && e.name == w.stores[agent][0].name && e.agent.specs != []
    ensures Core(w.(stores := w.stores[agent := [e]]))
  {
  }

  lemma BeginKeepsCore(w: World, reach: Reach)
    requires Core(w)
    ensures Core(Apply(w, Begin(reach)))
  {
  }

  lemma EditKeepsCore(w: World, s: Spec)
    requires Core(w)
    ensures Core(Apply(w, Edit(s)))
  {
    var v := Apply(w, Edit(s));
    assert v == w.(specs := v.specs) && (v.specs == w.specs || v.specs == w.specs + [s]);
  }

  lemma CommitKeepsCore(w: World, lost: bool)
    requires Core(w)
    ensures Core(Apply(w, Commit(lost)))
  {
  }

  lemma StepKeepsCore(w: World, s: Step)
    requires Core(w)
    ensures Core(Apply(w, s))
  {
    match s
    case Create(id, result) => CreateKeepsCore(w, id, result);
    case Patch(result) => PatchKeepsCore(w, result);
    case Find(listed) => FindKeepsCore(w, listed);
    case AgentStep(agent, step) => AgentStepKeepsCore(w, agent, step);
    case Commit(lost) => CommitKeepsCore(w, lost);
    case Begin(reach) => BeginKeepsCore(w, reach);
    case Edit(spec) => EditKeepsCore(w, spec);
    case Crash =>
  }

  lemma CreateKeepsAgents(w: World, id: nat, result: WriteResult)
    requires Base(w)
    ensures AgentsInOrder(Apply(w, Create(id, result)).stores)
  {
    if w.pc.Creating? { Rollout.NewInv(ToExternal(SpecRead(w))); }
  }

  lemma PatchKeepsAgents(w: World, result: WriteResult)
    requires Base(w)
    ensures AgentsInOrder(Apply(w, Patch(result)).stores)
  {
    if w.pc.Patching? {
      var e := Held(w.stores, SpecRead(w).agentRef)[0];
      Rollout.PushStep(e.agent, Overlay(e.Current(), SpecRead(w)));
    }
  }

  lemma StepKeepsAgents(w: World, s: Step)
    requires Base(w)
    ensures AgentsInOrder(Apply(w, s).stores)
  {
    match s
    case Create(id, result) => CreateKeepsAgents(w, id, result);
    case Patch(result) => PatchKeepsAgents(w, result);
    case AgentStep(agent, step) =>
      if |Held(w.stores, agent)| == 1 && !step.Push? { Rollout.StepKeepsInv(w.stores[agent][0].agent, step); }
    case _ => assert Apply(w, s).stores == w.stores;
  }

  lemma StepKeepsBase(w: World, s: Step)
    requires Base(w)
    ensures Base(Apply(w, s))
  {
    StepKeepsCore(w, s);
    StepKeepsAgents(w, s);
  }

  predicate Success(st: Status) {
    st.synced == IsTrue && st.externalPhase == Rollout.Succeeded
  }

  /** Synced and Succeeded are backed by a run for the spec of the pass that set Synced. */
  ghost predicate Confirmed(w: World)
    requires Reads(w)
  {
    && (Success(w.status) && !w.misled ==>
          0 < w.confirmed <= |w.specs| && RanAt(w.stores, w.specs[w.confirmed - 1]))
    && (w.pc.Committing? && w.pc.kind.FullPass? && Success(w.pc.status) && !w.pc.misled ==>
          RanAt(w.stores, SpecRead(w)))
  }

  /** The external deployment carries the spec of the checksum on record. */
  predicate Carried(st: Status, stores: Stores)
    requires NamesIt(st, stores)
    requires st.externalName.Some? ==> Named(st, stores).agent.specs != []
  {
    st.lastSpecChecksum.Some? ==> Carries(Named(st, stores).Current(), st.lastSpecChecksum.value)
  }

  /** The external phase of a synced status was decided for the external generation, and if settled it still stands. */
  predicate Stands(st: Status, stores: Stores)
    requires NamesIt(st, stores)
  {
    st.synced == IsTrue ==>
      var a := Named(st, stores).agent;
      a.decided == a.Generation() && (Rollout.Settled(st.externalPhase) ==> a.phase == st.externalPhase)
  }

  predicate PushInFlight(w: World) { w.pc.Committing? && w.pc.pushed }

  /** What is on record about the external deployment, as long as no push goes unrecorded. */
  predicate Recorded(w: World)
    requires Linked(w)
  {
    && (!w.unrecorded && !PushInFlight(w) ==> Carried(w.status, w.stores))
    && (!w.unrecorded && !PushInFlight(w) && !w.misled ==> Stands(w.status, w.stores))
    && (w.pc.Committing? && (!w.unrecorded || w.pc.pushed) ==>
          Carried(w.pc.status, w.stores) && (!MisledBy(w) ==> Stands(w.pc.status, w.stores)))
  }

  /** A ready status speaks of the spec it was stamped with. */
  ghost predicate Stamped(w: World)
    requires Reads(w)
  {
    !w.unrecorded && !w.misled ==>
      && (w.pc.Committing? && w.pc.kind.FastPass? && Success(w.pc.status) ==> RanAt(w.stores, SpecRead(w)))
      && (!w.unseen && Success(w.status) ==>
            0 < w.status.observed <= |w.specs| && RanAt(w.stores, w.specs[w.status.observed - 1]))
  }

  ghost predicate Truths(w: World) {
    Linked(w) && Confirmed(w) && Recorded(w) && Stamped(w)
  }

  ghost predicate Inv(w: World) {
    Base(w) && Truths(w)
  }

  /** A deployment that carries a spec and has run its own template has run that spec. */
  lemma RunIsOfTheSpec(e: External, s: Spec)
    requires e.agent.specs != [] && Rollout.HasRun(e.agent, e.Current().template) && Carries(e.Current(), s)
    ensures RanFor(e, s)
  {
    var a := e.agent;
    var i :| 0 <= i < |a.playbooks| && a.playbooks[i].spec == e.Current().template && a.playbooks[i].Executed();
  }

  /** The link between the tiers: a succeeded external deployment whose phase was decided for the spec it carries has
      run that spec. */
  lemma SucceededRan(e: External, s: Spec)
    requires Rollout.Inv(e.agent)
    requires e.agent.decided == e.agent.Generation() && e.agent.phase == Rollout.Succeeded && Carries(e.Current(), s)
    ensures RanFor(e, s)
  {
    Rollout.PresentSuccessHasRun(e.agent);
    RunIsOfTheSpec(e, s);
  }

  lemma RanForIsKept(e: External, f: External, s: Spec)
    requires RanFor(e, s)
    requires forall t | Rollout.HasRun(e.agent, t) :: Rollout.HasRun(f.agent, t)
    ensures RanFor(f, s)
  {
    var i :| 0 <= i < |e.agent.playbooks| && e.agent.playbooks[i].Executed()
             && e.agent.playbooks[i].spec.files == s.files && e.agent.playbooks[i].spec.entrypoint == s.entrypoint;
    var t := e.agent.playbooks[i].spec;
    assert Rollout.HasRun(e.agent, t);
    var j :| 0 <= j < |f.agent.playbooks| && f.agent.playbooks[j].spec == t && f.agent.playbooks[j].Executed();
  }

  /** How an external deployment may change while its spec stands still. */
  ghost predicate Later(e: External, f: External) {
    && f.name == e.name && f.agent.specs == e.agent.specs
    && (e.agent.observed == e.agent.Generation() ==> f.agent.observed == f.agent.Generation())
    && (e.agent.decided == e.agent.Generation() ==>
          f.agent.decided == f.agent.Generation()
            && (Rollout.Settled(e.agent.phase) ==> f.agent.phase == e.agent.phase))
    && (forall s | RanFor(e, s) :: RanFor(f, s))
  }

  /** No external deployment disappears, and each changes in this way only. */
  ghost predicate AllLater(v: Stores, u: Stores) {
    forall a | |Held(v, a)| == 1 :: |Held(u, a)| == 1 && Later(Held(v, a)[0], Held(u, a)[0])
  }

  lemma AgentStepIsLater(e: External, step: Rollout.Step)
    requires Rollout.Inv(e.agent) && !step.Push?
    ensures Later(e, e.(agent := Rollout.Apply(e.agent, step)))
  {
    var f := e.(agent := Rollout.Apply(e.agent, step));
    forall t ensures Rollout.HasRun(e.agent, t) ==> Rollout.HasRun(f.agent, t) {
      Rollout.QuietStep(e.agent, step, t);
    }
    Rollout.QuietStep(e.agent, step, Last(e.agent.specs).template);
    forall s | RanFor(e, s) ensures RanFor(f, s) {
      RanForIsKept(e, f, s);
    }
  }

  lemma StatusOutlives(st: Status, v: Stores, u: Stores)
    requires NamesIt(st, v) && AllLater(v, u)
    requires st.externalName.Some? ==> Named(st, v).agent.specs != []
    ensures NamesIt(st, u) && (st.externalName.Some? ==> Named(st, u).agent.specs != [])
    ensures Carried(st, v) ==> Carried(st, u)
    ensures Stands(st, v) ==> Stands(st, u)
  {
  }

  lemma RunsOutlive(v: Stores, u: Stores)
    requires AllLater(v, u)
    ensures forall s | RanAt(v, s) :: RanAt(u, s)
  {
    forall s | RanAt(v, s) ensures RanAt(u, s) {
      assert |Held(v, s.agentRef)| == 1;
    }
  }

  /** Everything that is on record outlives such changes. */
  lemma LaterKeeps(w: World, u: Stores)
    requires Truths(w) && AllLater(w.stores, u) && Linked(w.(stores := u))
    ensures Truths(w.(stores := u))
  {
    RunsOutlive(w.stores, u);
    RecordOutlives(w, u);
  }

  lemma RecordOutlives(w: World, u: Stores)
    requires Linked(w) && Recorded(w) && AllLater(w.stores, u) && Linked(w.(stores := u))
    ensures Recorded(w.(stores := u))
  {
    StatusOutlives(w.status, w.stores, u);
    if w.pc.Committing? {
      StatusOutlives(w.pc.status, w.stores, u);
    }
  }

  lemma AgentStepKeeps(w: World, agent: string, step: Rollout.Step)
    requires Truths(w) && Linked(Apply(w, AgentStep(agent, step)))
    requires |Held(w.stores, agent)| == 1 ==> Rollout.Inv(w.stores[agent][0].agent)
    ensures Truths(Apply(w, AgentStep(agent, step)))
  {
    if |Held(w.stores, agent)| == 1 && !step.Push? {
      AgentStepIsLater(w.stores[agent][0], step);
      var u := Apply(w, AgentStep(agent, step)).stores;
      forall a | |Held(w.stores, a)| == 1 ensures |Held(u, a)| == 1 && Later(Held(w.stores, a)[0], Held(u, a)[0]) {
        assert a != agent ==> Held(u, a) == Held(w.stores, a);
      }
      LaterKeeps(w, u);
    }
  }

  /** What an agent's phase is worth to any spec that its deployment carries. */
  ghost predicate Truthful(held: seq<External>) {
    |held| == 1 && held[0].agent.specs != []
    && held[0].agent.decided == held[0].agent.Generation() && held[0].agent.phase == Rollout.Succeeded ==>
      forall s | Carries(held[0].Current(), s) :: RanFor(held[0], s)
  }

  lemma AgentIsTruthful(w: World, agent: string)
    requires Base(w)
    ensures Truthful(Held(w.stores, agent))
  {
    var held := Held(w.stores, agent);
    if |held| == 1 && held[0].agent.decided == held[0].agent.Generation() && held[0].agent.phase == Rollout.Succeeded {
      forall s | Carries(held[0].Current(), s) ensures RanFor(held[0], s) {
        SucceededRan(held[0], s);
      }
    }
  }

  lemma FindKeepsRecord(w: World, listed: bool)
    requires Linked(w) && Recorded(w) && w.pc.Began? && Linked(Apply(w, Find(listed)))
    requires var held := Held(w.stores, SpecRead(w).agentRef); held != [] ==> held[0].name.agent == SpecRead(w).agentRef
    ensures Recorded(Apply(w, Find(listed)))
  {
  }

  lemma FindKeepsConfirmed(w: World, listed: bool)
    requires Linked(w) && Confirmed(w) && w.pc.Began? && Reads(Apply(w, Find(listed)))
    requires Truthful(Held(w.stores, SpecRead(w).agentRef))
    ensures Confirmed(Apply(w, Find(listed)))
  {
  }

  lemma FindKeepsStamped(w: World, listed: bool)
    requires Linked(w) && Stamped(w) && w.pc.Began? && Reads(Apply(w, Find(listed)))
    ensures Stamped(Apply(w, Find(listed)))
  {
  }

  lemma FindKeeps(w: World, listed: bool)
    requires Truths(w) && w.pc.Began? && Truthful(Held(w.stores, SpecRead(w).agentRef))
             && Linked(Apply(w, Find(listed)))
    requires var held := Held(w.stores, SpecRead(w).agentRef); held != [] ==> held[0].name.agent == SpecRead(w).agentRef
    ensures Truths(Apply(w, Find(listed)))
  {
    FindKeepsRecord(w, listed);
    FindKeepsConfirmed(w, listed);
    FindKeepsStamped(w, listed);
  }

  lemma BeginKeepsRecord(w: World, reach: Reach)
    requires Linked(w) && Recorded(w) && Linked(Apply(w, Begin(reach)))
    ensures Recorded(Apply(w, Begin(reach)))
  {
  }

  lemma BeginKeepsConfirmed(w: World, reach: Reach)
    requires Linked(w) && Confirmed(w) && Linked(Apply(w, Begin(reach)))
    ensures Confirmed(Apply(w, Begin(reach)))
  {
  }

  /** A pass that returns early speaks of the spec of the checksum. */
  lemma FastPassRan(w: World)
    requires Linked(w) && Recorded(w) && w.pc.Idle? && FastPath(w.status, Last(w.specs))
    requires Truthful(Held(w.stores, Last(w.specs).agentRef))
    ensures !w.unrecorded && !w.misled && Success(w.status) ==> RanAt(w.stores, Last(w.specs))
  {
  }

  lemma BeginKeepsStamped(w: World, reach: Reach)
    requires Linked(w) && Recorded(w) && Stamped(w) && Linked(Apply(w, Begin(reach)))
    requires Truthful(Held(w.stores, Last(w.specs).agentRef))
    ensures Stamped(Apply(w, Begin(reach)))
  {
    if w.pc.Idle? && FastPath(w.status, Last(w.specs)) { FastPassRan(w); }
  }

  lemma BeginKeeps(w: World, reach: Reach)
    requires Truths(w) && Truthful(Held(w.stores, Last(w.specs).agentRef)) && Linked(Apply(w, Begin(reach)))
    ensures Truths(Apply(w, Begin(reach)))
  {
    BeginKeepsRecord(w, reach);
    BeginKeepsConfirmed(w, reach);
    BeginKeepsStamped(w, reach);
  }

  lemma CreateKeeps(w: World, id: nat, result: WriteResult)
    requires Truths(w) && Linked(Apply(w, Create(id, result)))
    ensures Truths(Apply(w, Create(id, result)))
  {
    if w.pc.Creating? {
      var u := Apply(w, Create(id, result)).stores;
      forall s | RanAt(w.stores, s) ensures RanAt(u, s) {
        assert s.agentRef != SpecRead(w).agentRef;
      }
    }
  }

  /** A push leaves the playbooks alone. */
  lemma PatchKeepsRun(w: World, result: WriteResult, s: Spec)
    requires Linked(w) && w.pc.Patching? && RanAt(w.stores, s)
    ensures RanAt(Apply(w, Patch(result)).stores, s)
  {
    var a, u := SpecRead(w).agentRef, Apply(w, Patch(result)).stores;
    if !result.Rejected? {
      assert Held(u, a)[0].agent.playbooks == Held(w.stores, a)[0].agent.playbooks;
      assert s.agentRef != a ==> Held(u, s.agentRef) == Held(w.stores, s.agentRef);
    }
  }

  lemma PatchKeepsRecord(w: World, result: WriteResult)
    requires Linked(w) && Recorded(w) && w.pc.Patching? && Linked(Apply(w, Patch(result)))
    ensures Recorded(Apply(w, Patch(result)))
  {
  }

  lemma PatchEffect(w: World, result: WriteResult)
    requires Linked(w) && w.pc.Patching?
    ensures var v := Apply(w, Patch(result));
            && v.specs == w.specs && v.status == w.status && v.confirmed == w.confirmed
            && v.misled == w.misled && v.unseen == w.unseen && (w.unrecorded ==> v.unrecorded)
            && v.pc.Committing? && v.pc.status.synced == IsFalse && !v.pc.kind.FastPass?
  {
  }

  lemma PatchKeepsConfirmed(w: World, result: WriteResult)
    requires Linked(w) && Confirmed(w) && w.pc.Patching? && Reads(Apply(w, Patch(result)))
    ensures Confirmed(Apply(w, Patch(result)))
  {
    PatchEffect(w, result);
    if Success(w.status) && !w.misled {
      PatchKeepsRun(w, result, w.specs[w.confirmed - 1]);
    }
  }

  lemma PatchKeepsStamped(w: World, result: WriteResult)
    requires Linked(w) && Stamped(w) && w.pc.Patching? && Reads(Apply(w, Patch(result)))
    ensures Stamped(Apply(w, Patch(result)))
  {
    PatchEffect(w, result);
    if !w.unrecorded && !w.misled && !w.unseen && Success(w.status) {
      PatchKeepsRun(w, result, w.specs[w.status.observed - 1]);
    }
  }

  lemma PatchKeeps(w: World, result: WriteResult)
    requires Truths(w) && Linked(Apply(w, Patch(result)))
    ensures Truths(Apply(w, Patch(result)))
  {
    if w.pc.Patching? {
      PatchKeepsConfirmed(w, result);
      PatchKeepsStamped(w, result);
      PatchKeepsRecord(w, result);
    }
  }

  lemma CommitKeeps(w: World, lost: bool)
    requires Truths(w) && Linked(Apply(w, Commit(lost)))
    ensures Truths(Apply(w, Commit(lost)))
  {
  }

  lemma EditKeepsRecord(w: World, s: Spec)
    requires Linked(w) && Recorded(w) && Linked(Apply(w, Edit(s)))
    ensures Recorded(Apply(w, Edit(s)))
  {
    var v := Apply(w, Edit(s));
    assert v == w.(specs := v.specs);
  }

  lemma EditKeepsHistory(w: World, s: Spec)
    requires Reads(w)
    ensures var v := Apply(w, Edit(s));
            && v == w.(specs := v.specs) && Reads(v) && (!w.pc.Idle? ==> SpecRead(v) == SpecRead(w))
            && |w.specs| <= |v.specs| && forall i | 0 <= i < |w.specs| :: v.specs[i] == w.specs[i]
  {
  }

  lemma EditKeepsConfirmed(w: World, s: Spec)
    requires Linked(w) && Confirmed(w) && Linked(Apply(w, Edit(s)))
    ensures Confirmed(Apply(w, Edit(s)))
  {
    EditKeepsHistory(w, s);
  }

  lemma EditKeepsStamped(w: World, s: Spec)
    requires Linked(w) && Stamped(w) && Linked(Apply(w, Edit(s)))
    ensures Stamped(Apply(w, Edit(s)))
  {
    EditKeepsHistory(w, s);
  }

  lemma EditKeepsTruths(w: World, s: Spec)
    requires Truths(w) && Linked(Apply(w, Edit(s)))
    ensures Truths(Apply(w, Edit(s)))
  {
    EditKeepsRecord(w, s);
    EditKeepsConfirmed(w, s);
    EditKeepsStamped(w, s);
  }

  lemma CrashKeepsTruths(w: World)
    requires Truths(w) && Linked(Apply(w, Crash))
    ensures Truths(Apply(w, Crash))
  {
  }

  lemma StepKeepsTruths(w: World, s: Step)
    requires Base(w) && Truths(w) && Linked(Apply(w, s))
    ensures Truths(Apply(w, s))
  {
    match s
    case Begin(reach) =>
      AgentIsTruthful(w, Last(w.specs).agentRef);
      BeginKeeps(w, reach);
    case Find(listed) =>
      if w.pc.Began? {
        AgentIsTruthful(w, SpecRead(w).agentRef);
        FindKeeps(w, listed);
      }
    case Create(id, result) => CreateKeeps(w, id, result);
    case Patch(result) => PatchKeeps(w, result);
    case Commit(lost) => CommitKeeps(w, lost);
    case AgentStep(agent, step) => AgentStepKeeps(w, agent, step);
    case Edit(spec) => EditKeepsTruths(w, spec);
    case Crash => CrashKeepsTruths(w);
  }

  lemma StepKeepsInv(w: World, s: Step)
    requires Inv(w)
    ensures Inv(Apply(w, s))
  {
    StepKeepsBase(w, s);
    StepKeepsTruths(w, s);
  }

  function Run(w: World, steps: seq<Step>): (r: World)
    requires Core(w)
    ensures Core(r)
    decreases |steps|
  {
    if steps == [] then w
    else
      StepKeepsCore(w, steps[0]);
      Run(Apply(w, steps[0]), steps[1..])
  }

  lemma {:induction false} RunKeepsInv(w: World, steps: seq<Step>)
    requires Inv(w)
    ensures Inv(Run(w, steps))
    decreases |steps|
  {
    if steps != [] {
      StepKeepsInv(w, steps[0]);
      RunKeepsInv(Apply(w, steps[0]), steps[1..]);
    }
  }
}

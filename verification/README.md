# Kubeforce: a verified model of its reconcile protocols

Kubeforce provisions Kubernetes on existing hosts. Controllers in a management cluster drive agents over the network,
and every agent runs playbooks with retries. The decisions are made by small reconcile loops over shared, versioned
objects. These Dafny modules model the loops and prove what they guarantee together, in every interleaving.

`dafny verify dfyconfig.toml` checks the whole project.

## How it is built

Most components come in two parts that are tied together:

- A *machine*: a value `World`, a datatype `Step` whose constructors are single API calls of one reconcile, steps of
  the environment, lost replies, lost status patches and crashes, and a function `Apply`. The theorems are about
  `Run(w, steps)` for every sequence of steps, so about every interleaving of any length.
- The *methods* in the form of the source: classes with the fields that the controllers change, loops, early returns
  and deferred patches. Their contracts equate the new state with the value of a specification function, and a lemma
  (`PassIsARun`, `ClaimIsARun`, `DeletePassIsARun`, ...) shows that a pass is a run of the machine. What the
  specification functions mean is stated without them, in the fields of the objects (`PassTells`, `OverlayMeans`,
  `HandleTells`, `DecodedMeans`, ...).

| module | part of the system |
|---|---|
| `Replication`, `ReplicationTheorems`, `ReplicationController` | a management PlaybookDeployment pushed to an agent; embeds the rollout below, which embeds the retry machine |
| `ObjectStatus`, `DeploymentRefinement` | the object that an owner sees, and that the replication is nothing else to it |
| `AgentRollout`, `AgentRolloutTheorems`, `AgentDeploymentController` | the agent's controller that turns specs into a sequence of playbooks |
| `PlaybookRetry`, `Backoff`, `Defaulting` | one playbook's phases, retries and delays; the API's defaulting |
| `RemotePlaybook`, `RemotePlaybookController` | a management Playbook and its external copy |
| `AgentClaim`, `AgentClaimController` | how machines claim and release agents |
| `DeletionCascade`, `DeletionController`, `DeletionProgress` | deletion of agent, machine, playbooks and deployments through finalizers |
| `RunnableManager` | start and stop of the agent's runnables |
| `Prober` | health probes: hysteresis, cache, updates, workers |
| `FileCache`, `FileCacheStorage` | the download cache: per-key mutex, temporary file, rename |
| `TemplateSequencing`, `TemplatePasses`, `TemplateRollout`, `TemplateReconciler` | playbooks made from templates in order of priority |
| `CloudInit`, `CloudInitMeaning` | cloud-init user data as an Ansible task list |
| `ApiServers` | the list of API servers, refreshed by one controller and extended by another |
| `Sorting`, `Strings`, `Common` | stable in-place sort, Go's string helpers, small vocabulary |

## Where the code differs from what one expects

The code is modelled as written. Where a promise fails, a lemma gives the failing run and another one the exact
condition under which it holds:

- The checksum early return misses a revert after a push whose status patch *or whose reply* was lost
  (`LostPatchMisleadsEarlyReturn`, `LostReplyMisleadsEarlyReturn`); which outcomes of the calls do it is exact
  (`RevertIsMissedExactly`, `LaterRevertIsMissedExactly`).
- An edit of the agent reference leads to a second external object at the new agent exactly while the name of the
  first one is not on record (`AnotherAgentGetsOneExactly`, for deployments and for playbooks); after that the lookup
  at the new agent fails (`LookupFailsExactly`).
- A pass over an agent paused by annotation stamps the generation of an edited spec beside the old verdict
  (`PausedAgentLooksReady`), which is true of the edited spec exactly when agent, files and entrypoint are the same
  (`PausedStampIsTrueExactly`). The recorded checksum is not misled by it (`ChecksumMeansCurrentSpecRan`).
- The agent stamps the generation before the error of List or Create returns (`FaultyPassStampsOldPhase`): the phase
  beside it is then true exactly when the stored template is the same (`FaultyStampIsTrueExactly`), and the next pass
  without an error puts it right (`CleanPassIsDecided`).
- With equal creation times an older playbook may pass for the newest (`EqualTimestampsMisorder`); the newest is found
  in every listing exactly when it is strictly the newest (`NewestIsCertainExactly`).
- The agent's deletion of a deployment keeps the finalizer exactly when no playbook is left, against the comment
  beside it (`AgentDeploymentController.ReconcileDelete`).
- A failed preparation starts the command all the same, exactly when it leaves another attempt
  (`FailedPreparationStillRuns`, `UnpreparedCommandStartsExactly`); a timed-out command counts as a success
  (`TimeoutCountsAsSuccess`).
- A release whose finalizer patch is lost is repeated and can take the agent away from its next holder
  (`SplitReleaseStealsAgent`). It does so exactly when the label names another machine by then
  (`ReleaseStealsExactly`); with that test in the release, all other machines keep their agents in every run
  (`ClaimsAreExclusive`).
- An object labelled with an agent that is not its machine's blocks the agent's deletion (`ForeignObjectBlocks`),
  unless it is marked already; the controllers alone can finish exactly when there is none
  (`ForcedDeletionEndsExactly`).
- A start-up failure cancels the main context only after the wait that needs it (`StartUpFailureHangs`); an orderly
  end is within reach exactly after a regular start or with no main runnable left running (`OrderlyEndExactly`).
- A probe that is asked for again while its worker is stopped or leaving is lost (`EnsureDuringStopIsLost`); asking
  works exactly when no worker, or one that is neither, is registered (`EnsureWorksExactly`).
- A key that is another key plus ".tmp" sees partial downloads (`CommitIsSafeExactlyWithoutCollision`), and a crash
  can leave a temporary file that blocks its key for good (`CrashCanBlock`, `LeftoverBlocksTheKey`); a missing file
  can be served exactly when there is no such file (`KeyIsServableExactly`).
- After a template change, the second pass takes the old success of the updated deployment for the new one's
  (`StaleSuccessIsTakenForReady`). Observing the new generation is no cure, because a pass over a paused agent stamps
  it. A finished pass is right exactly when every deployment it saw has the checksum of its present specification on
  record (`FinishedIsTrueExactly`), and such a success was run at the agent (`PresentSuccessRan`).
- Of a pair of encodings only the first is decoded (`DecodingIsCompleteExactly`). List commands are written out under
  the key of the copy module (command.go of pkg/ansible, line 22), and empty contents or command lines are left out of
  the text, so Ansible fails on them (`TaskListMeans`).
- A control plane machine whose address changed, is unknown, or is another one's sees another list of API servers than
  the next refresh writes (`EndpointsAreTheNextRefresh`).

## Assumptions

One reconcile at a time for a key; a generation for every spec change; fresh reads unless a machine says otherwise
(the search for a free agent reads any past version); nobody but the controllers changes the objects they own. The
spec checksum is taken to be injective, so a spec stands for its checksum. Creation times of playbooks ascend
strictly. The generated names of external objects at different agents differ: their random parts never coincide. A
release of an agent is one step with its finalizer removal, or with the loss of that patch. An owner that makes
deployments from templates never changes their agent. A machine's objects are created only while it is not marked for
deletion, except by its cleanup: a pass that is under way ends before the deletion pass of the same machine begins. A
List that is answered with "not found", which the lookup of an external object reads as an empty list, does not occur.
File contents and shell lines of user data hold no "{{ ... }}", which Ansible would expand. Clocks, preparation,
commands, health and the answers of API calls are arbitrary inputs.

## Model

| member | source | states |
|---|---|---|
| ReplicationTheorems.SyncedAndSucceededMeansRun | cluster-api-provider-kubeforce/controllers/playbookdeployment_controller.go:302-420 | in every interleaving of edits (of the agent reference too), management passes, agent deployment passes and playbook passes, with any lost replies and patches and failing calls on both sides: Synced and ExternalPhase Succeeded mean that the agent named by the spec of the pass that confirmed them has run, without an error, a playbook with the files and entrypoint of that spec, unless the phase confirmed there had not been decided for its generation |
| ReplicationTheorems.ReadyMeansCurrentSpecRan | cluster-api-provider-kubeforce/controllers/playbookdeployment_controller.go:134 | Synced and Succeeded with observedGeneration equal to generation mean the same for the current spec, early returns included, unless the last push is not recorded, the confirmed phase had not been decided for its generation, or a pass over a paused agent stamped a generation not observed before |
| ReplicationTheorems.ChecksumMeansCurrentSpecRan | cluster-api-provider-kubeforce/controllers/playbookdeployment_controller.go:304-420 | in every run: Synced and Succeeded beside the checksum of the current spec mean that this spec has been run at its agent, whatever passes stamped the generation, unless a push is in flight, the last one is not recorded, or the confirmed phase had not been decided for its generation |
| ReplicationTheorems.EarlyReturnRefinesFullPass | cluster-api-provider-kubeforce/controllers/playbookdeployment_controller.go:304-420 | in every run whose last push is recorded and whose confirmed phase was decided for its generation, the early return leaves nothing out: the full pass would neither create nor patch and would commit the same status |
| ReplicationTheorems.FullPassDelivers | cluster-api-provider-kubeforce/controllers/playbookdeployment_controller.go:350-419 | in every run: when a full pass has created, pushed or confirmed without an error, the agent holds a deployment with the labels, annotations, files, entrypoint, pause and, if named, history limit of the spec the pass read |
| ReplicationTheorems.AtMostOneExternal | cluster-api-provider-kubeforce/controllers/playbookdeployment_controller.go:350-390 | an agent never holds more than one external deployment, whatever replies and patches are lost and however the spec, its agent reference included, is edited |
| ReplicationTheorems.AnotherAgentGetsOneExactly | cluster-api-provider-kubeforce/controllers/playbookdeployment_controller.go:350-390 | an agent that holds no external deployment yet can come to hold one exactly while ExternalName is not on record: so a second agent gets one exactly when the spec moves before the first name was recorded |
| ReplicationTheorems.ExternalNameIsWriteOnce | cluster-api-provider-kubeforce/controllers/playbookdeployment_controller.go:358-390 | over every run an external deployment keeps its name; ExternalName once written never changes, and from then on no agent gets another deployment |
| ReplicationTheorems.LookupFailsExactly | cluster-api-provider-kubeforce/controllers/playbookdeployment_controller.go:350-389 | with the list answered, the lookup ends in an error exactly when ExternalName is on record and was made for another agent than the one the spec names now |
| ReplicationTheorems.ReadyIsReachable | cluster-api-provider-kubeforce/controllers/playbookdeployment_controller.go:302-420 | the guarantee is not empty: for every spec that is not paused there is a run that ends synced, succeeded and observed, with one external deployment and one playbook of that spec |
| ReplicationTheorems.ConfirmingPass | cluster-api-provider-kubeforce/controllers/playbookdeployment_controller.go:390-419 | a full pass over an external deployment that carries the spec changes only the status: Synced is true exactly when the external controller has observed its generation |
| ReplicationTheorems.LostPatchMisleadsEarlyReturn | cluster-api-provider-kubeforce/controllers/playbookdeployment_controller.go:402-407 | so a push whose status patch is lost makes the early return miss a revert, from every state where it could fire before |
| ReplicationTheorems.LostReplyMisleadsEarlyReturn | cluster-api-provider-kubeforce/controllers/playbookdeployment_controller.go:392-399 | so can a lost reply, as a paused deployment shows: a later pass sets Synced beside the old checksum |
| ReplicationTheorems.RevertIsMissedExactly | cluster-api-provider-kubeforce/controllers/playbookdeployment_controller.go:304-407 | from every deployment at rest, after an edit, a pass that pushes it with any outcome, and a revert: the early return fires although the agent does not hold the spec exactly when the status patch was lost and the push was not rejected |
| ReplicationTheorems.LaterRevertIsMissedExactly | cluster-api-provider-kubeforce/controllers/playbookdeployment_controller.go:304-419 | the same with the status stored, any steps of the agent and one more pass before the revert: exactly when the reply of the push was lost and the agent shows a settled phase for the generation it observed |
| ReplicationTheorems.PausedAgentLooksReady | cluster-api-provider-kubeforce/controllers/playbookdeployment_controller.go:330-334 | from every state between passes, an edit and a pass over an agent that is paused by annotation change nothing but the observed generation |
| ReplicationTheorems.PausedStampIsTrueExactly | cluster-api-provider-kubeforce/controllers/playbookdeployment_controller.go:330-334 | after every run that makes a spec ready, an edit and such a pass claim ready for the edited spec; that is true in all of them exactly when agent reference, files and entrypoint stayed the same |
| Replication.StepKeepsBase | cluster-api-provider-kubeforce/controllers/playbookdeployment_controller.go:302-420 | one step keeps: at most one external deployment an agent, the status names one that exists or none, the pass in progress knows the state it read, and the agents are in order |
| Replication.StepKeepsInv | cluster-api-provider-kubeforce/controllers/playbookdeployment_controller.go:302-420 | one step keeps what Synced, the checksum and the phase say about the agent |
| Replication.SucceededRan | agent/pkg/controllers/playbookdeployment.go:106-145 | a succeeded external deployment whose phase was decided for the spec it carries has run its files and entrypoint |
| Replication.CarriesMeans | cluster-api-provider-kubeforce/controllers/playbookdeployment_controller.go:482-513 | nothing is left to push exactly when labels, annotations, files, entrypoint, pause and, if the spec names one, history limit agree |
| Replication.OverlayMeans | cluster-api-provider-kubeforce/controllers/playbookdeployment_controller.go:482-513 | a push makes those fields agree and keeps the policy, and a history limit that the spec leaves open |
| Replication.CreationMeans | cluster-api-provider-kubeforce/controllers/playbookdeployment_controller.go:448-480 | a created deployment agrees field by field and has the API's defaults where the spec says nothing |
| Replication.AgentStepIsLater | agent/pkg/controllers/playbookdeployment.go:71-146 | a step of the agent keeps the observed generation, a settled phase decided for the present generation, and everything that has run |
| DeploymentRefinement.RunIsHistory | cluster-api-provider-kubeforce/controllers/playbookdeployment_controller.go:302-420 | refinement: every run of the two tiers, with the agent reference kept, is for the owner of the deployment a history of moves of the object's own controller and rewrites of its specification |
| DeploymentRefinement.StepIsMove | cluster-api-provider-kubeforce/controllers/playbookdeployment_controller.go:302-420 | each step, edits apart, is one such move or shows nothing |
| DeploymentRefinement.PresentSuccessRan | cluster-api-provider-kubeforce/controllers/playbookdeployment_controller.go:302-420 | in every run: a success confirmed for the present specification was run at the agent unless its phase had not been decided for its generation; and with the last push on record a success is that exactly when the checksum is the present specification's |
| ReplicationController.ReconcileNormal | cluster-api-provider-kubeforce/controllers/playbookdeployment_controller.go:302-420 | the method over the object and the API leaves exactly the status and external objects of the specified pass, on every path and outcome of its calls |
| ReplicationController.ReconcileListed | cluster-api-provider-kubeforce/controllers/playbookdeployment_controller.go:350-419 | the part after the client: create, refuse, patch or confirm |
| ReplicationController.UpdateExternal | cluster-api-provider-kubeforce/controllers/playbookdeployment_controller.go:482-513 | field by field: afterwards the external deployment has the spec's labels, annotations, files, entrypoint, pause and, if named, history limit, and its own policy and otherwise limit; it is patched exactly if that changes something |
| ReplicationController.ReconcilePhase | cluster-api-provider-kubeforce/controllers/playbookdeployment_controller.go:274-300 | when the phase is Failed, Deleting, Completed, Provisioning or Synchronization |
| ReplicationController.PassTells | cluster-api-provider-kubeforce/controllers/playbookdeployment_controller.go:302-420 | for every status and everything a pass meets: exactly when it sets a failure, sets Synced true, records the checksum, or changes nothing, in the fields of the two objects |
| ReplicationController.PassIsARun | cluster-api-provider-kubeforce/controllers/playbookdeployment_controller.go:302-420 | a pass with its calls in a row is a run of the two-tier machine, from every state |
| AgentRolloutTheorems.OneActiveRollout | agent/pkg/controllers/playbookdeployment.go:112-145 | in every run, with failing calls and lost patches: all playbooks but the newest have ended, neighbours have different specs, creation times ascend |
| AgentRolloutTheorems.CreationsAreBounded | agent/pkg/controllers/playbookdeployment.go:112-145 | the number of playbooks ever created is at most one plus the number of template changes |
| AgentRolloutTheorems.AtMostOneMore | agent/pkg/controllers/playbookdeployment.go:112-145 | once the spec stands still and no pass holds an older one, at most one more playbook is created, whatever fails |
| AgentRolloutTheorems.PassStartsTheRollout | agent/pkg/controllers/playbookdeployment.go:223-246 | a pass that finds no playbook, or an ended one of another template, creates one that is stored with exactly the current template |
| AgentRolloutTheorems.RolloutIsStable | agent/pkg/controllers/playbookdeployment.go:112-145 | once the newest playbook has ended with the current template, a pass reports its outcome and further passes change nothing |
| AgentRolloutTheorems.PassTells | agent/pkg/controllers/playbookdeployment.go:106-145 | for every state and every failing call: exactly when a pass reports each phase, keeps the old one, or creates a playbook |
| AgentRolloutTheorems.OvertakenPassStampsWhatItRead | agent/pkg/controllers/playbookdeployment.go:71-106 | a pass that a spec change overtakes stamps the generation it read |
| AgentRolloutTheorems.DefaultingMakesItSettle | agent/pkg/controllers/playbookdeployment.go:129-136 | the comparison of template and playbook settles exactly when the template is fully defaulted |
| AgentRolloutTheorems.SucceededMeansRun | agent/pkg/controllers/playbookdeployment.go:248-256 | in every run with failing calls and lost patches: a succeeded phase means that a playbook with the template of the generation it was decided for has run without an error; so with the current template, if the template has not changed since |
| AgentRolloutTheorems.CleanPassIsDecided | agent/pkg/controllers/playbookdeployment.go:106-145 | a stored pass without a failing call decides the phase for the current generation, whatever failed before |
| AgentRolloutTheorems.FaultyPassStampsOldPhase | agent/pkg/controllers/playbookdeployment.go:106-115 | from every state between passes, an edit and a pass whose List fails stamp the new generation beside the old phase and change nothing else: the generation is stamped before the error returns |
| AgentRolloutTheorems.FaultyStampIsTrueExactly | agent/pkg/controllers/playbookdeployment.go:106-115 | after every run that brings a deployment to Succeeded, an edit and such a pass stamp the edited generation beside Succeeded; that is true of the edited spec in all of them exactly when the stored template stayed the same |
| AgentRollout.StepKeepsInv | agent/pkg/controllers/playbookdeployment.go:71-146 | one step keeps the order, ends and origins of all playbooks, and that every phase, stored or about to be, is backed by a run for the generation it was decided for |
| AgentRollout.QuietStep | agent/pkg/controllers/playbookdeployment.go:71-146 | a step other than a spec change keeps the specs, every successful run, and a settled phase decided for the present generation |
| AgentDeploymentController.Reconcile | agent/pkg/controllers/playbookdeployment.go:71-146 | the method leaves exactly the judged playbooks, phase and observed generation for every fault and lost patch |
| AgentDeploymentController.ReconcileStatus | agent/pkg/controllers/playbookdeployment.go:106-145 | the body up to the deferred patch: the generation is stamped on every path |
| AgentDeploymentController.GetLastPlaybook | agent/pkg/controllers/playbookdeployment.go:148-158 | the newest owned playbook, through list, filter and in-place sort |
| AgentDeploymentController.GetPlaybooksForDeployment | agent/pkg/controllers/playbookdeployment.go:166-179 | exactly the owned playbooks of the listing, in its order |
| AgentDeploymentController.OwnedMeans | agent/pkg/controllers/playbookdeployment.go:166-179 | the owned playbooks are those whose owner is the deployment, each place of the listing once and in its order |
| AgentDeploymentController.SortPlaybooksByCreationTime | agent/pkg/controllers/playbookdeployment.go:160-164 | the in-place sort equals the stable sort by creation time |
| AgentDeploymentController.NewestIsListed | agent/pkg/controllers/playbookdeployment.go:148-164 | a playbook created after all others is found wherever the listing puts it |
| AgentDeploymentController.ListingOrderIsIrrelevant | agent/pkg/controllers/playbookdeployment.go:148-179 | any listing of the rollout's playbooks yields the rollout's newest one |
| AgentDeploymentController.EqualTimestampsMisorder | agent/pkg/controllers/playbookdeployment.go:160-164 | of two playbooks with one timestamp the listing may name the older |
| AgentDeploymentController.NewestIsCertainExactly | agent/pkg/controllers/playbookdeployment.go:148-164 | every listing of some playbooks names p as the newest exactly when p is one of them and was created strictly after all others |
| AgentDeploymentController.AgentServer.CreatePlaybook | agent/pkg/controllers/playbookdeployment.go:223-246 | one playbook with the stored template is added unless the call is refused; a lost reply adds it too |
| AgentDeploymentController.PassIsARun | agent/pkg/controllers/playbookdeployment.go:71-146 | an undisturbed pass, over any listing of the rollout's playbooks, is a run of the machine |
| AgentDeploymentController.ReconcileDelete | agent/pkg/controllers/playbookdeployment.go:196-221 | the owned playbooks not marked yet are deleted up to the first failing call; after a pass without a failure the finalizer goes exactly when some playbook was listed, the inverse of the comment beside the test |
| Defaulting.SetDefaultsPolicy | agent/pkg/apis/agent/v1alpha1/defaults.go:28-39 | a missing timeout becomes ten minutes and a missing backoff limit three, in place; given ones stay |
| Defaulting.SetDefaultsPlaybookSpec | agent/pkg/apis/agent/v1alpha1/defaults.go:51-55 | adds an empty policy object if there is none |
| Defaulting.SetDefaultsPlaybookDeploymentSpec | agent/pkg/apis/agent/v1alpha1/defaults.go:41-49 | a missing revision history limit becomes ten, in place; everything else stays |
| Defaulting.SetObjectDefaultsPlaybook | agent/pkg/apis/agent/v1alpha1/zz_generated.defaults.go:39-44 | field by field: only gaps of the policy are filled; files and entrypoint stay |
| Defaulting.SetObjectDefaultsPlaybookDeployment | agent/pkg/apis/agent/v1alpha1/zz_generated.defaults.go:46-52 | field by field: only gaps of the template's policy and of the history limit are filled |
| Defaulting.FixedPointsAreComplete | agent/pkg/apis/agent/v1alpha1/zz_generated.defaults.go:39-44 | defaulting is idempotent and its fixed points are exactly the complete specs |
| Defaulting.DefaultsAgree | agent/pkg/apis/agent/v1alpha1/zz_generated.defaults.go:39-52 | a playbook made from a stored template is stored with exactly that template |
| AgentClaim.ClaimsAreExclusive | cluster-api-provider-kubeforce/controllers/kubeforcemachine_controller.go:282-358 | for any number of machines and agents, stale snapshots, lost replies, lost finalizer patches and crashes: in every run a machine name labels at most one agent; and if every release finds its own label or none, a set AgentRef points at an agent with that label, except for machines under deletion whose own finalizer patch was lost after their release |
| AgentClaim.AgentsAreNotShared | cluster-api-provider-kubeforce/controllers/kubeforcemachine_controller.go:282-357 | in such runs two machines never record one agent, the same machines excepted |
| AgentClaim.OwnLabelIsUnambiguous | cluster-api-provider-kubeforce/controllers/kubeforcemachine_controller.go:304-320 | in every run the own-label list finds none or exactly one agent: the error for several is unreachable |
| AgentClaim.OnlyReadyAgentsAreTaken | cluster-api-provider-kubeforce/controllers/kubeforcemachine_controller.go:340-353 | in every run, over the whole history of every agent: a machine's label follows its own or a clear one, and where it follows a clear one the agent was ready at that very version |
| AgentClaim.ClaimIsKept | cluster-api-provider-kubeforce/controllers/kubeforcemachine_controller.go:275-357 | a label once taken and an AgentRef once set stay until the machine itself goes, over every run whose releases find their own label or none |
| AgentClaim.LostClaimIsFound | cluster-api-provider-kubeforce/controllers/kubeforcemachine_controller.go:304-326 | after a claim whose reply was lost, over every such run until the machine itself goes: the own-label list finds that agent and no other, and an AgentRef that is set is that agent |
| AgentClaim.ClaimSucceeds | cluster-api-provider-kubeforce/controllers/kubeforcemachine_controller.go:328-357 | an undisturbed claim of a free and ready agent succeeds and changes only that agent and machine |
| AgentClaim.StepKeepsSafe | cluster-api-provider-kubeforce/controllers/kubeforcemachine_controller.go:275-447 | every step but a release split from its finalizer removal keeps exclusiveness and what all machines believe |
| AgentClaim.StepKeepsLabelled | cluster-api-provider-kubeforce/controllers/kubeforcemachine_controller.go:275-447 | every step, split releases included, keeps: a machine name labels at most one agent, and a machine that looks for one holds none |
| AgentClaim.StepKeepsSteady | cluster-api-provider-kubeforce/controllers/kubeforcemachine_controller.go:275-447 | every step keeps what the machines believe that have not released yet, provided that a release, split or not, finds its own label or none |
| AgentClaim.UnsplitIsGuarded | cluster-api-provider-kubeforce/controllers/kubeforcemachine_controller.go:437-446 | without a split release every release finds its own label |
| AgentClaim.DropKeepsSafe | cluster-api-provider-kubeforce/controllers/kubeforcemachine_controller.go:437-446 | where all machines are in order, clearing an agent's label keeps them so exactly when no machine records it or is about to |
| AgentClaim.SplitReleaseStealsAgent | cluster-api-provider-kubeforce/controllers/kubeforcemachine_controller.go:437-446 | the release does not look at the holder: split from its finalizer removal, its repetition takes the agent away from another machine |
| AgentClaim.ReleaseStealsExactly | cluster-api-provider-kubeforce/controllers/kubeforcemachine_controller.go:437-446 | a release takes an agent from another machine exactly when the label there names another one, which only happens to a machine whose own release was split before |
| AgentClaim.ReleaseKeepsSteadyExactly | cluster-api-provider-kubeforce/controllers/kubeforcemachine_controller.go:437-446 | a release, repeated or not, leaves the other machines in order exactly when none of them records its agent or is about to |
| AgentClaimController.FindAgent | cluster-api-provider-kubeforce/controllers/kubeforcemachine_controller.go:555-562 | the first agent of the list that carries no machine label and is ready, or none exactly when none is both |
| AgentClaimController.ReconcileAgentRef | cluster-api-provider-kubeforce/controllers/kubeforcemachine_controller.go:275-358 | which agent one pass labels and records, on every branch, with and without a selector and an AgentRef and for failing reads, and when it reports ambiguity, a wrong label, waiting or a conflict |
| AgentClaimController.ApiServer.UpdateAgent | cluster-api-provider-kubeforce/controllers/kubeforcemachine_controller.go:347-353 | an update takes effect only on the version it was read at |
| AgentClaimController.ClaimIsARun | cluster-api-provider-kubeforce/controllers/kubeforcemachine_controller.go:328-357 | the pass over a snapshot of any age, free and ready in it, is a run of the protocol |
| DeletionCascade.DeletionIsOrdered | cluster-api-provider-kubeforce/controllers/kubeforcemachine_controller.go:376-446 | in every run: a cleanup object or a completed cleanup implies that no install object is left, and the agent is neither released nor gone while an object of the machine is left |
| DeletionCascade.NothingIsCreatedAfterCleanup | cluster-api-provider-kubeforce/controllers/kubeforcemachine_controller.go:406-435 | once the stored cleanup condition is true the machine's objects only become fewer |
| DeletionCascade.MachineGoesLast | cluster-api-provider-kubeforce/controllers/kubeforcemachine_controller.go:436-446 | a machine that recorded its agent goes only together with the release of the agent, and only after all its objects |
| DeletionCascade.ForcedNeverStuck | cluster-api-provider-kubeforce/controllers/kubeforceagent_controller.go:222-275 | with the agent deleted and unhealthy, waits over, and all labelled objects the machine's or marked: some controller always has a step that changes something |
| DeletionCascade.ForcedStepDescends | cluster-api-provider-kubeforce/controllers/kubeforceagent_controller.go:222-275 | every controller step that changes anything lowers a measure over objects, deletion marks and finalizers |
| DeletionCascade.ForcedDeletionEnds | cluster-api-provider-kubeforce/controllers/kubeforceagent_controller.go:222-275 | in whatever order controllers run, they change something only so often, and when none can, agent, machine, playbooks and deployments are gone |
| DeletionCascade.ForcedDeletionCanEnd | cluster-api-provider-kubeforce/controllers/kubeforceagent_controller.go:222-275 | such an end is within reach of every forced deletion |
| DeletionCascade.ForcedDeletionEndsExactly | cluster-api-provider-kubeforce/controllers/kubeforceagent_controller.go:222-275 | the controllers alone can bring the deletion of an unhealthy agent to its end exactly when every object labelled with the agent is the machine's or is marked for deletion already |
| DeletionCascade.ForeignObjectBlocks | cluster-api-provider-kubeforce/controllers/kubeforceagent_controller.go:235-254 | an object labelled with the agent that is neither the machine's nor marked is deleted by no controller, and the agent waits for ever |
| DeletionCascade.StepKeepsInv | cluster-api-provider-kubeforce/controllers/kubeforcemachine_controller.go:360-447 | one step of any controller or user keeps the order of deletion |
| DeletionController.ReconcileDeleteObjects | cluster-api-provider-kubeforce/controllers/kubeforcemachine_controller.go:449-482 | object by object: every match is marked, or gone if it has no finalizer, and the others stay; done exactly when there was none; an error leaves some uncalled |
| DeletionController.ReconcileDeleteMachine | cluster-api-provider-kubeforce/controllers/kubeforcemachine_controller.go:360-447 | one pass over a machine marked for deletion, on every branch and with failing delete calls, the cleanup of a healthy agent included |
| DeletionController.DeleteTheRest | cluster-api-provider-kubeforce/controllers/kubeforcemachine_controller.go:436-446 | from the end of the cleanup on: playbooks, then deployments, then the release of the agent together with the finalizer |
| DeletionController.ReconcileCleaner | cluster-api-provider-kubeforce/controllers/kubeforcemachine_controller.go:608-635 | the pass over the cleanup templates creates the first object missing, if all before are ready, and is done when all are |
| DeletionController.CleanerPassIsAStep | cluster-api-provider-kubeforce/controllers/kubeforcemachine_controller.go:406-435 | that pass changes nothing or is the cascade's creation step: no install object is left and the templates before it are ready |
| DeletionController.ReconcileDeleteAgent | cluster-api-provider-kubeforce/controllers/kubeforceagent_controller.go:222-275 | one pass over an agent marked for deletion is the cascade's agent step: it goes exactly when no machine holds it, no object is left and a healthy host was uninstalled; a machine that holds it is marked |
| DeletionController.ReconcileDeleteObject | cluster-api-provider-kubeforce/controllers/playbook_controller.go:248-299 | one pass over a playbook or deployment marked for deletion is the cascade's step: it goes exactly when it has no external object, or a healthy agent has lost that, or the wait for a deleted and unhealthy agent is over |
| DeletionController.DeletePassIsARun | cluster-api-provider-kubeforce/controllers/kubeforcemachine_controller.go:360-447 | every undisturbed pass of the machine's controller, cleanup templates included, is a run of the cascade's steps |
| DeletionProgress.ForcedPassProgresses | cluster-api-provider-kubeforce/controllers/kubeforcemachine_controller.go:360-447 | over an unhealthy agent marked for deletion: a pass that changes nothing leaves no deletion, forced cleanup or release that would |
| DeletionProgress.HealthyPassProgresses | cluster-api-provider-kubeforce/controllers/kubeforcemachine_controller.go:360-447 | over a healthy agent: a pass that changes nothing leaves no deletion, creation of a cleanup object, end of the cleanup or release that would |
| DeletionProgress.HealthyPassWaits | cluster-api-provider-kubeforce/controllers/kubeforcemachine_controller.go:360-447 | such a pass waits for one of the machine's objects that is on its way out or is a cleanup object not ready |
| DeletionProgress.AwaitedMovesOn | cluster-api-provider-kubeforce/controllers/playbook_controller.go:248-299 | over a healthy agent an awaited object can always be brought on by its own controller or the agent |
| DeletionProgress.PassDescends | cluster-api-provider-kubeforce/controllers/kubeforceagent_controller.go:222-275 | in a forced deletion each pass of machine, agent or object changes nothing or lowers the measure |
| DeletionProgress.ForcedPassesEnd | cluster-api-provider-kubeforce/controllers/kubeforceagent_controller.go:222-275 | the passes themselves bring a forced deletion to its end: in any order at most Measure of them change something, and some pass would as long as anything is left |
| DeletionProgress.PassReleases | cluster-api-provider-kubeforce/controllers/kubeforcemachine_controller.go:436-446 | where a pass lets the machine go it has released the agent, and no object of the machine was left |
| DeletionProgress.FinalizerProtects | cluster-api-provider-kubeforce/controllers/kubeforcemachine_controller.go:449-517 | an object with a finalizer leaves only in a pass of its own controller, after its deletion was marked |
| DeletionController.LoopIsARun | cluster-api-provider-kubeforce/controllers/kubeforcemachine_controller.go:484-517 | the deletion loop is a sequence of single deletions, each of them allowed |
| PlaybookRetry.Process | agent/pkg/controllers/playbook.go:107-176 | in the fields of the status: exactly when the pass waits and for how long, prepares the host, starts the command, and what each leaves |
| PlaybookRetry.Reconcile | agent/pkg/controllers/playbook.go:81-176 | read, process a copy, patch: the stored status changes exactly if the patch arrives; whether the pass prepares and whether it runs |
| PlaybookRetry.InvAlways | agent/pkg/controllers/playbook.go:115-175 | for all sequences of passes from creation: Failed stays in 0..BackoffLimit, the two conditions exclude each other, phase Succeeded is exactly a true Execution condition |
| PlaybookRetry.TerminalIsAbsorbing | agent/pkg/controllers/playbook.go:115-119 | a terminal status never changes and nothing runs again |
| PlaybookRetry.ExecutionMeansARunSucceeded | agent/pkg/controllers/playbook.go:156-173 | Execution is true at the end exactly when some run returned no error and was stored |
| PlaybookRetry.NotWaitingIsProgress | agent/pkg/controllers/playbook.go:120-175 | every stored pass that does not wait lowers a measure of attempts and phase |
| PlaybookRetry.ThreePassesPerAttempt | agent/pkg/controllers/playbook.go:115-175 | at most 3 * BackoffLimit + 1 passes change the status, over every sequence of passes |
| PlaybookRetry.RunsAreBounded | agent/pkg/controllers/playbook.go:115-175 | the command starts at most BackoffLimit times, plus once for every lost patch |
| PlaybookRetry.EveryRunIsPrepared | agent/pkg/controllers/playbook.go:138-173 | over every sequence of passes each start of the command has a stored preparation of its own, in a pass of its own, except for repetitions after a lost patch |
| PlaybookRetry.UnpreparedRunningHasFailed | agent/pkg/controllers/playbook.go:145-155 | if no preparation succeeds, phase Running is only reached with a failure on record |
| PlaybookRetry.RunsRespectBackoff | agent/pkg/controllers/playbook.go:127-136 | no command starts before creation plus the capped doubling of ten seconds |
| PlaybookRetry.FailedPreparationStillRuns | agent/pkg/controllers/playbook.go:145-155 | a failed preparation is counted and the phase becomes Running all the same; the next pass starts the command exactly when the failure leaves another attempt and its backoff is over, for all metas and statuses |
| PlaybookRetry.UnpreparedCommandStartsExactly | agent/pkg/controllers/playbook.go:145-155 | after a failed preparation, passes of which none prepares the playbook can start the command exactly when Failed + 1 is below BackoffLimit |
| PlaybookRetry.TimeoutCountsAsSuccess | agent/pkg/controllers/playbook.go:156-173 | over every sequence of passes in which no command completes, Execution becomes true exactly when some command was cut off by its timeout |
| Backoff.BackoffIsCappedDoubling | agent/pkg/controllers/playbook.go:257-273 | for every exponent the float computation equals min(10 s * 2^(n-1), 360 s), or 0 |
| Backoff.BackoffIsMonotone | agent/pkg/controllers/playbook.go:257-273 | the backoff grows with the exponent, between 0 and 360 s |
| Backoff.NeverTwo63 | agent/pkg/controllers/playbook.go:264-268 | no product equals 2^63, so the conversion after the rounded comparison stays in range |
| RemotePlaybook.AtMostOneExternal | cluster-api-provider-kubeforce/controllers/playbook_controller.go:368-409 | an agent never holds more than one external playbook, none is ever rewritten, and ExternalName is write-once, whatever is lost or edited |
| RemotePlaybook.AnotherAgentGetsOneExactly | cluster-api-provider-kubeforce/controllers/playbook_controller.go:368-409 | an agent that holds no external playbook yet can come to hold one exactly while ExternalName is not on record |
| RemotePlaybook.CompletedMeansRun | cluster-api-provider-kubeforce/controllers/playbook_controller.go:145-182 | Completed means that the external playbook, a copy of the spec at its creation, was run without an error at the agent it was created for; a copied failure means that its attempts are used up |
| RemotePlaybook.CompletedIsReachable | cluster-api-provider-kubeforce/controllers/playbook_controller.go:145-182 | the guarantee is not empty: for every playbook there is a run that ends Completed |
| RemotePlaybook.OutcomesAreFinal | cluster-api-provider-kubeforce/controllers/playbook_controller.go:328-332 | Completed and a copied failure never change again, whatever users edit and the agent does |
| RemotePlaybook.StepKeepsInv | cluster-api-provider-kubeforce/controllers/playbook_controller.go:325-418 | one step keeps every status true of the external playbook |
| RemotePlaybookController.ReconcileNormal | cluster-api-provider-kubeforce/controllers/playbook_controller.go:325-418 | the method leaves exactly the status and external objects of the specified pass |
| RemotePlaybookController.CopyExternal | cluster-api-provider-kubeforce/controllers/playbook_controller.go:406-412 | field by field: name and phase are copied, a set condition overrides, an unset one leaves the old, no failure is left |
| RemotePlaybookController.AppendExternalConditions | cluster-api-provider-kubeforce/controllers/playbook_controller.go:420-429 | later conditions win over earlier ones and all over what was there |
| RemotePlaybookController.ReconcilePhase | cluster-api-provider-kubeforce/controllers/playbook_controller.go:145-182 | exactly when the phase is Failed, Deleting, Completed, Synchronization or Provisioning, and when a failure reason is set |
| RemotePlaybookController.PassTells | cluster-api-provider-kubeforce/controllers/playbook_controller.go:325-418 | for every status and everything a pass meets: exactly when it fails, creates, copies or changes nothing, in the fields of status and external playbook |
| RemotePlaybookController.PassIsARun | cluster-api-provider-kubeforce/controllers/playbook_controller.go:325-418 | a pass with its calls in a row, its status patch stored or lost, is a run of the machine |
| RemotePlaybookController.MergeOfConditions | cluster-api-provider-kubeforce/controllers/playbook_controller.go:420-429 | appending the set conditions overrides exactly those types |
| RunnableManager.StartAndStopAreOrdered | agent/pkg/manager/manager.go:89-189 | in every interleaving: no regular runnable starts before every main one was ready; the main context is cancelled only after every started regular runnable exited or the grace period expired; the internal one is once the outer is done or Start is stopping; an end without the grace error means every started runnable has exited |
| RunnableManager.ServiceIsReachable | agent/pkg/manager/manager.go:89-128 | for any number of runnables in both tiers all of them can come to run |
| RunnableManager.ServiceEndsExactly | agent/pkg/manager/manager.go:130-137 | Start leaves its service exactly when the outer context is done or some runnable has failed |
| RunnableManager.StartUpEndsExactly | agent/pkg/manager/manager.go:113-122 | while it waits for the main tier, exactly a failure ends it |
| RunnableManager.GraceEndsExactly | agent/pkg/manager/manager.go:157-189 | whatever the runnables do, the timer ends the wait exactly when there is a grace period |
| RunnableManager.ShutdownProceeds | agent/pkg/manager/manager.go:130-189 | with the main context still to be cancelled, or no main runnable running, some step always brings the end nearer, without the grace timer |
| RunnableManager.ShutdownCanEnd | agent/pkg/manager/manager.go:157-189 | so an end with everything exited is then within reach |
| RunnableManager.OrderlyEndExactly | agent/pkg/manager/manager.go:91-189 | without the grace timer, with runnables that return once their context is cancelled, an end with everything exited is within reach exactly when the goroutine that cancels the main context was started or no main runnable is running |
| RunnableManager.StartUpFailureHangs | agent/pkg/manager/manager.go:91-122 | after a start-up failure a main runnable that waits for its context runs on, and without a grace period Start never returns |
| RunnableManager.StartUpCanFail | agent/pkg/manager/manager.go:113-122 | such a state is reached when one of two main runnables fails |
| RunnableManager.StepKeepsInv | agent/pkg/manager/manager.go:89-189 | one step of any goroutine keeps the order |
| RunnableManager.Manager.Add | agent/pkg/manager/manager.go:192-198 | each runnable joins exactly one tier, behind those before it |
| Prober.Worker.DoProbe | cluster-api-provider-kubeforce/controllers/prober/worker.go:146-180 | the counters stay those of the probe history; the cache changes exactly on a completed run; an update is sent exactly when the cached result changes |
| Prober.ResultManager.Set | cluster-api-provider-kubeforce/controllers/prober/results_manager.go:112-116 | sends an update exactly when the result differs from the cached one |
| Prober.ResultManager.SetInternal | cluster-api-provider-kubeforce/controllers/prober/results_manager.go:119-129 | caches the result and says whether it differs |
| Prober.RunLengthIsLongestEqualSuffix | cluster-api-provider-kubeforce/controllers/prober/worker.go:162-167 | the counter is the length of the longest suffix of equal results |
| Prober.RecordFollowsThreshold | cluster-api-provider-kubeforce/controllers/prober/worker.go:169-178 | a probe leaves its result on record exactly when it ends a run of its threshold, under parameters that may change at any time |
| Prober.FlipsNeedAFullRun | cluster-api-provider-kubeforce/controllers/prober/worker.go:169-178 | the record flips only at the end of a run as long as the threshold |
| Prober.UpdatesAlternate | cluster-api-provider-kubeforce/controllers/prober/controller.go:124-148 | in every interleaving of probes, sends, parameter changes and workers that come and go: one running worker a key, strictly alternating updates, and the last one equals the cached result once no send is pending |
| Prober.ProbeAndSendIsTheMethod | cluster-api-provider-kubeforce/controllers/prober/worker.go:146-180 | a probe and its send in a row do to cache, stream and history what the worker's method does |
| Prober.Registry.EnsureProbe | cluster-api-provider-kubeforce/controllers/prober/controller.go:124-139 | a worker that is there gets the parameters and keeps its counters; otherwise a new one is registered; the worker on record is live exactly when there was none or it was not stopped |
| Prober.Registry.RemoveProbe | cluster-api-provider-kubeforce/controllers/prober/controller.go:141-148 | the worker is told to stop and stays registered |
| Prober.Registry.RemoveWorker | cluster-api-provider-kubeforce/controllers/prober/controller.go:178-183 | the key is free again |
| Prober.StepKeepsInv | cluster-api-provider-kubeforce/controllers/prober/controller.go:124-183 | one step keeps registry and streams in order |
| Prober.EnsureDuringStopIsLost | cluster-api-provider-kubeforce/controllers/prober/controller.go:124-183 | a probe asked for again while its worker is stopped or leaving gets no worker of its own, and none is left once that one is gone |
| Prober.WorkerIsTold | cluster-api-provider-kubeforce/controllers/prober/controller.go:124-148 | asking sets a present worker's parameters, giving up tells it to stop, and nothing else changes |
| Prober.AskingAgainTooSoonIsLost | cluster-api-provider-kubeforce/controllers/prober/controller.go:124-183 | a probe given up and asked for again before its worker has left is lost |
| Prober.EnsureWorksExactly | cluster-api-provider-kubeforce/controllers/prober/controller.go:124-139 | asking for a probe leaves it with a worker that goes on probing exactly when no worker was registered, or the registered one had neither been told to stop nor left its loop |
| FileCache.CommitIsSafeExactlyWithoutCollision | cluster-api-provider-kubeforce/pkg/repository/storage.go:74-118 | a final path only ever holds a complete download, in every run with removals and crashes over a set of keys, exactly when no key is another one plus ".tmp" |
| FileCache.ReturnedFilesAreComplete | cluster-api-provider-kubeforce/pkg/repository/storage.go:74-118 | what a call returns is a complete download |
| FileCache.OneDownloadPerKey | cluster-api-provider-kubeforce/pkg/repository/storage.go:120-129 | a key has at most one call between lock and unlock, so at most one download in flight |
| FileCache.NoTemporaryFileWhileUnlocked | cluster-api-provider-kubeforce/pkg/repository/storage.go:88-105 | without a crash, a key whose lock is free has no temporary file |
| FileCache.LeftoverBlocksTheKey | cluster-api-provider-kubeforce/pkg/repository/storage.go:88-95 | a temporary file left by a crash makes every later call for its key fail, and the final file stays missing, until somebody removes it |
| FileCache.KeyIsServableExactly | cluster-api-provider-kubeforce/pkg/repository/storage.go:74-118 | for a key that nobody works on and that has no final file: a call for it can return a file, without anybody removing the temporary file, exactly when there is none |
| FileCache.CrashCanBlock | cluster-api-provider-kubeforce/pkg/repository/storage.go:88-110 | a crash during a download leaves such a file |
| FileCache.StepKeepsInv | cluster-api-provider-kubeforce/pkg/repository/storage.go:70-129 | one step of any call, a removal or a crash keeps locks, files and calls in order |
| FileCacheStorage.Storage.GetFile | cluster-api-provider-kubeforce/pkg/repository/storage.go:74-118 | one call alone on its key is a run of the machine; it returns a file exactly when its stat works and the final file is there, or neither file is and every operation works and nobody removes the temporary file meanwhile; and what it leaves on disk |
| FileCacheStorage.Storage.Fetch | cluster-api-provider-kubeforce/pkg/repository/storage.go:88-118 | the part with no final file there, and exactly when it delivers |
| FileCacheStorage.Storage.Download | cluster-api-provider-kubeforce/pkg/repository/storage.go:100-117 | from opening the temporary file to its removal, and exactly when it delivers |
| FileCacheStorage.Storage.Commit | cluster-api-provider-kubeforce/pkg/repository/storage.go:114-117 | the rename, after whatever others removed meanwhile, succeeds exactly when it works and the temporary file is still there |
| TemplateSequencing.GetReferences | cluster-api-provider-kubeforce/controllers/playbook/reconciler.go:118-133 | for every map order: a permutation of the matching references in non-increasing priority |
| TemplateSequencing.PassIsReadyIff | cluster-api-provider-kubeforce/controllers/playbook/reconciler.go:77-90 | a pass is ready exactly when all its references are, and then it changes no object |
| TemplateSequencing.PassChangesOneRole | cluster-api-provider-kubeforce/controllers/playbook/reconciler.go:77-88 | what a pass changes belongs to one reference, and all references before it are ready |
| TemplateSequencing.PassStopsAt | cluster-api-provider-kubeforce/controllers/playbook/reconciler.go:77-88 | a pass that is not ready stops at its first reference that is not, with that one's verdict |
| TemplateSequencing.PassCreatesInOrder | cluster-api-provider-kubeforce/controllers/playbook/reconciler.go:77-90 | a pass creates an object only for a role all of whose higher priorities are ready |
| TemplateSequencing.OutcomeIgnoresMapOrder | cluster-api-provider-kubeforce/controllers/playbook/reconciler.go:118-133 | whether a pass is ready does not depend on the order of the map |
| TemplateSequencing.CreateAgreesWithUpdate | cluster-api-provider-kubeforce/controllers/playbook/reconciler.go:308-370 | a new deployment is left alone by the next update exactly when the variables are not an empty map, or the template holds the empty map itself: creation asks for length, the update for nil |
| TemplateSequencing.MergedMeans | cluster-api-provider-kubeforce/controllers/playbook/reconciler.go:93-105 | variable by variable: the template's own win, and without any the caller's are passed on, absent or not |
| TemplateSequencing.SpecsMean | cluster-api-provider-kubeforce/controllers/playbook/reconciler.go:308-370 | file by file: the template's files and entrypoint, and the variables under their own name |
| TemplateSequencing.HandleTells | cluster-api-provider-kubeforce/controllers/playbook/reconciler.go:161-240 | for every state and outcome of the calls for a reference: exactly when it is an error, ready, created or rewritten, and what its owner shows |
| TemplatePasses.OneObjectPerRole | cluster-api-provider-kubeforce/controllers/playbook/reconciler.go:161-240 | in every run, with failing calls and lost replies: an owner never has two objects of one kind for one role |
| TemplatePasses.HigherPrioritiesFirst | cluster-api-provider-kubeforce/controllers/playbook/reconciler.go:77-90 | in every run, with statuses changing between two references of one pass: an object is created only after that pass saw everything of higher priority succeed, and a pass ends well only after it saw everything succeed |
| TemplatePasses.FinishedIsTrueExactly | cluster-api-provider-kubeforce/controllers/playbook/reconciler.go:175-192 | in every run, with the own controllers' moves in between: that all a finished pass saw has succeeded for its present specification is true exactly when every deployment it took for ready has that specification's checksum on record, which the reconciler does not test; provided their last pushes are on record |
| ObjectStatus.SuccessIsPresentExactly | cluster-api-provider-kubeforce/controllers/playbook/reconciler.go:175-192 | a success on record is of the present specification: always a playbook's, a deployment's exactly when the recorded checksum is the present specification's, provided the last push is on record |
| ObjectStatus.OwnKeepsFits | cluster-api-provider-kubeforce/controllers/playbookdeployment_controller.go:302-420 | every move of an object's own controller keeps: with the last push on record the checksum is of what the agent holds, and of what a true condition confirmed |
| TemplatePasses.PassIsARun | cluster-api-provider-kubeforce/controllers/playbook/reconciler.go:77-90 | an undisturbed pass is a run of the machine and marks the condition true exactly when it is ready |
| TemplatePasses.StepKeepsInv | cluster-api-provider-kubeforce/controllers/playbook/reconciler.go:50-91 | one step keeps one object a role and justifies every creation |
| TemplateRollout.RolloutEnds | cluster-api-provider-kubeforce/controllers/playbook/reconciler.go:161-240 | without faults, after at most two rounds a reference a pass is ready |
| TemplateRollout.PassMeetsANeed | cluster-api-provider-kubeforce/controllers/playbook/reconciler.go:161-240 | every pass that is not ready creates or updates something that was missing |
| TemplateRollout.StaleSuccessIsTakenForReady | cluster-api-provider-kubeforce/controllers/playbook/reconciler.go:175-192 | a deployment that is updated keeps its old success; the next pass takes it for the new specification's, even if the deployment's own controller has observed the new generation in between, over a paused agent |
| TemplateReconciler.Reconcile | cluster-api-provider-kubeforce/controllers/playbook/reconciler.go:50-91 | the method: no templates, an unsupported type, or the specified pass over some arrangement of the references, and the one condition it marks |
| TemplateReconciler.ReconcileReference | cluster-api-provider-kubeforce/controllers/playbook/reconciler.go:107-116 | dispatch by kind, with the error for an unsupported one |
| TemplateReconciler.ReconcilePlaybook | cluster-api-provider-kubeforce/controllers/playbook/reconciler.go:205-240 | find, create or look at a playbook, for every outcome of the calls |
| TemplateReconciler.ReconcilePlaybookDeployment | cluster-api-provider-kubeforce/controllers/playbook/reconciler.go:161-203 | find, create, update or look at a deployment, for every outcome of the calls |
| TemplateReconciler.UpdatePlaybookDeployment | cluster-api-provider-kubeforce/controllers/playbook/reconciler.go:296-330 | patches exactly when the specification differs from the template's |
| TemplateReconciler.MergeVariables | cluster-api-provider-kubeforce/controllers/playbook/reconciler.go:93-105 | the template's variables win; without any, nil stays nil |
| CloudInitMeaning.TranslationKeepsMeaning | cluster-api-provider-kubeforce/pkg/cloudinit/playbook_adapter.go:58-98 | for files of a single encoding that are not empty and commands that are non-empty strings, the task list ends on every disk and machine exactly as cloud-init's order does with the contents that the encoding names mean, in success and in failure |
| CloudInitMeaning.TaskListMeans | cluster-api-provider-kubeforce/pkg/cloudinit/playbook_adapter.go:58-98 | for all correctly decoded user data: the task list fails if some file is empty or some command is a list or empty, and otherwise means what the user data means |
| CloudInitMeaning.DirectoriesFirst | cluster-api-provider-kubeforce/pkg/cloudinit/playbook_adapter.go:74-89 | making all parents first and then the files is the same as file by file |
| CloudInitMeaning.NoPlaybookOnlyForBadFiles | cluster-api-provider-kubeforce/pkg/cloudinit/playbook_adapter.go:66-70 | no playbook at all comes only from user data that cannot be carried out either |
| CloudInitMeaning.ParentsComeFirst | cluster-api-provider-kubeforce/pkg/cloudinit/playbook_adapter.go:79-89 | before a file is copied a task has made its directory |
| CloudInitMeaning.DirectoriesAscend | cluster-api-provider-kubeforce/pkg/cloudinit/playbook_adapter.go:74-78 | the directory tasks are distinct and in the order of sort.Strings |
| CloudInitMeaning.PutCommutes | cluster-api-provider-kubeforce/pkg/cloudinit/playbook_adapter.go:79-89 | a file whose parent exists can be written before or after other directories are made |
| CloudInit.DecodingIsCompleteExactly | cluster-api-provider-kubeforce/pkg/cloudinit/writefiles.go:45-67 | a file is decoded as its encoding says exactly when the encoding is no pair, or its first layer is broken, or the second one changes nothing |
| CloudInit.DecodedMeans | cluster-api-provider-kubeforce/pkg/cloudinit/writefiles.go:27-67 | by the names themselves: gz and gzip are unzipped, base64 and b64 decoded, the four pairs only decoded, and everything else is taken as it is |
| CloudInit.OwnerMeans | cluster-api-provider-kubeforce/pkg/cloudinit/playbook_adapter.go:107-111 | an owner is a user and a group exactly when one colon parts it |
| CloudInit.FixContent | cluster-api-provider-kubeforce/pkg/cloudinit/writefiles.go:45-67 | only the first encoding of a list is taken off |
| CloudInit.UserDataToTasks | cluster-api-provider-kubeforce/pkg/cloudinit/playbook_adapter.go:58-98 | sorted distinct directories, then the copies in order, then the commands in order and as they are; none exactly when some file cannot be decoded |
| CloudInit.WriteFileToTask | cluster-api-provider-kubeforce/pkg/cloudinit/playbook_adapter.go:100-119 | destination, mode and owner of the file, and its content by the decoder that the encoding's name stands for |
| CloudInit.ListDirectories | cluster-api-provider-kubeforce/pkg/cloudinit/playbook_adapter.go:74-78 | every directory of the set once, in ascending order |
| ApiServers.EndpointsAreTheNextRefresh | cluster-api-provider-kubeforce/controllers/kubeforcemachine_controller.go:731-750 | what a control plane machine sees over the last refresh equals what the next refresh writes, exactly when its address is known and was on record already or is its first and nobody else's |
| ApiServers.Cluster.RefreshAPIServers | cluster-api-provider-kubeforce/controllers/kubeforcecluster_controller.go:541-550 | the known addresses, sorted |
| ApiServers.Cluster.GetAPIServerEndpoints | cluster-api-provider-kubeforce/controllers/kubeforcemachine_controller.go:731-750 | the list itself, or with the own address sorted in |
| ApiServers.KnownAfterChange | cluster-api-provider-kubeforce/controllers/kubeforcecluster_controller.go:541-550 | a machine's new address takes the place of its old one in the multiset of known addresses |
| Sorting.SortInPlace | cluster-api-provider-kubeforce/controllers/playbook/reconciler.go:129-131 | the in-place stable sort equals insertion on the sequence |
| Sorting.SortSorts | cluster-api-provider-kubeforce/controllers/playbook/reconciler.go:129-131 | the result is sorted for every total preorder |
| Sorting.SortKeepsElements | cluster-api-provider-kubeforce/controllers/playbook/reconciler.go:129-131 | the result is a permutation |
| Sorting.SortedIsUnique | cluster-api-provider-kubeforce/controllers/kubeforcecluster_controller.go:548 | with an antisymmetric order the sorted arrangement is unique |
| Strings.SortStrings | cluster-api-provider-kubeforce/pkg/cloudinit/playbook_adapter.go:74-78 | sort.Strings: sorted in the byte-wise order and a permutation |
| Strings.StringLeMeans | cluster-api-provider-kubeforce/pkg/cloudinit/playbook_adapter.go:78 | the order of the directories is the dictionary's |
| Strings.SplitMeans | cluster-api-provider-kubeforce/pkg/cloudinit/playbook_adapter.go:107 | the parts hold no separator and joined they give the string |
| Strings.ToLowerMeans | cluster-api-provider-kubeforce/pkg/cloudinit/writefiles.go:30 | exactly the capital letters A to Z change, each to its own small letter |
| Strings.TrimSpaceMeans | cluster-api-provider-kubeforce/pkg/cloudinit/writefiles.go:31 | exactly the spaces at both ends are cut off |
| Strings.DirMeans | cluster-api-provider-kubeforce/pkg/cloudinit/playbook_adapter.go:72 | the directory of a path is all before its last slash |

## Left out

- Installation over SSH, systemd, embedded etcd, certificates and TLS rotation, the agent's HTTP server: foreign calls; their outcomes are inputs.
- Watches, event filters, metrics, logging and requeue delays: when a reconcile happens is arbitrary.
- JSON, YAML, SHA-256, base64 and gzip: contents are opaque values, decoders are parameters.
- Load balancer objects, kubeconfig and control plane endpoint of the cluster controller: field copying; only the server list is modelled.
- Agent groups, scaling, the agent client cache, webhooks, generated conversion and client code: they would add only easy members.
- Pausing of the cluster and of objects by annotation: only an agent's pause is modelled, because it changes what a pass stamps.
- The Cluster API patch helper writes status and conditions with separate calls: a status patch is one step that arrives or is lost.
- ReplicationController.ReconcileNormal: labels and owner references that a pass adds to the management object are not modelled.
- AgentClaim.ClaimsAreExclusive: agent objects are not deleted during a claim, and the own-label list is fresh.
- AgentDeploymentController.ReconcileDelete: the deletion of the single playbook files on the agent is not modelled, nor are finalizers of agent playbooks.
- DeletionController.ReconcileDeleteMachine: a cleanup object is created and judged by kind and role only; the contents of its template are the subject of the template modules. A failing read or patch of the machine is the lost patch of the cascade.
- DeletionCascade.DeletionIsOrdered: references of the templates are fixed, and no role is both an install and a cleanup role; a boot playbook counts as install.
- DeletionController.ReconcileDeleteAgent: the uninstall over the agent's own API is one outcome, done or not.
- RunnableManager.StartAndStopAreOrdered: goroutines, channels and contexts are steps over values rather than objects, because they interleave.
- Prober.UpdatesAlternate: the buffer of the update channel is unbounded once a send is taken, a panic in a probe is not modelled, and the consumer that forwards updates is left out.
- Prober.Worker.DoProbe: parameters are read at the same instant as the result is recorded; messages of results are left out.
- FileCache.CommitIsSafeExactlyWithoutCollision: keys are clean relative paths, so different keys name different files; directories and permissions show only as failing operations.
- TemplateReconciler.Reconcile: a failing deferred patch of the owner only loses the shown phases, which nothing reads back; templates whose file map is nil are not modelled.
- TemplateReconciler.ReconcilePlaybook: labels and owner references of the created object are not modelled, one owner's objects are those its labels select.
- CloudInitMeaning.TranslationKeepsMeaning: paths are clean; cloud-init and Ansible both stop at the first failure; an owner that is not a user and a group is ignored on both sides.
- ApiServers.Cluster.GetAPIServerEndpoints: the append may reuse spare capacity of the cluster's own slice and reorder it in place; the list is a value here.
- Sorting.SortInPlace: Go's sort.SliceStable and sort.Slice are modelled by an in-place insertion sort; only stability, order and permutation are used.
- Strings.Dir: models filepath.Dir on clean paths only.
- RemotePlaybook.OutcomesAreFinal: the machine's playbook is not marked for deletion; that deletion is part of DeletionCascade.
- AgentClaimController.ReconcileAgentRef: conditions and their messages are folded into the result; an invalid selector ends like a failing list.
- AgentClaim.DropKeepsSafe: the release's version check always passes, because the agent was read in the same pass; a refused update changes nothing and is no step.
- TemplatePasses.FinishedIsTrueExactly: says nothing about a deployment with a push that is not on record; LaterRevertIsMissedExactly tells what its checksum is worth.
- DeploymentRefinement.RunIsHistory: edits that change the agent reference are left out, because the owner always writes its own agent.

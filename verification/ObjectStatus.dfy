/**
 A Playbook or PlaybookDeployment as its owner sees it: a specification, and the status that its own controller stores.
 `Own` is one move of that controller's passes. For deployments, DeploymentRefinement shows that the whole two-tier
 replication does nothing else to the object.
 */
module ObjectStatus {
  import opened Common

  datatype Kind = PlaybookTemplate | PlaybookDeploymentTemplate | OtherKind

  /** What a pass has read. */
  datatype Revision<S> = Revision(generation: nat, spec: S)

  /** The first eight fields are stored in the object; `checksum` stands for the spec it was computed from. The others
      are history:
      - `looking`: what the pass in progress has read, and `pushed`: that it has pushed it and knows;
      - `holds`: the spec pushed to the agent last;
      - `unrecorded`: a push took effect, and neither its checksum nor that of a later push is on record;
      - `confirmed`: the spec of the pass that last set the synchronization condition to true. */
  datatype Managed<S> = Managed(
    kind: Kind, role: string, spec: S, generation: nat, synced: Condition, phase: string, checksum: Option<S>,
    observed: nat, looking: Option<Revision<S>>, pushed: bool, holds: Option<S>, unrecorded: bool,
    confirmed: Option<S>)
  {
    function Current(): Revision<S> { Revision(generation, spec) }

    function WithSpec(s: S): Managed<S> { this.(spec := s, generation := generation + 1) }

    /** The pass in progress stores its status. */
    function Stored(synced: Condition, phase: string): Managed<S>
      requires looking.Some?
    {
      this.(synced := synced, phase := phase, observed := looking.value.generation, looking := None)
    }
  }

  function NewManaged<S>(kind: Kind, role: string, spec: S): Managed<S> {
    Managed(kind, role, spec, 1, Unset, "", None, 0, None, false, None, false, None)
  }

  datatype OwnStep =
    | Look                                     // a pass begins
    | Push(known: bool)                        // it pushes what it read; or its reply is lost
    | Record(phase: string)                    // it stores that it pushed
    | Confirm(synced: Condition, phase: string) // the agent holds what it read: it stores whether that is observed
    | Fail(phase: string)
    | Stamp                                    // it stores nothing new: an early return, or a paused agent
    | Drop                                     // its patch is lost, or it crashes
    | Copy(synced: Condition, phase: string)   // a playbook's status is copied
    | Rest

  function Own<S(==)>(o: Managed<S>, s: OwnStep): Managed<S> {
    if s.Look? then (if o.looking.None? then o.(looking := Some(o.Current())) else o)
    else if s.Drop? then o.(looking := None, pushed := false, unrecorded := o.unrecorded || o.pushed)
    else if o.looking.None? then o
    else match s
      case Copy(synced, phase) =>
        if o.kind.PlaybookTemplate? then o.Stored(synced, phase).(confirmed := Some(o.looking.value.spec)) else o
      case Push(known) =>
        if o.pushed || o.kind.PlaybookTemplate? then o
        else o.(holds := Some(o.looking.value.spec), pushed := known, unrecorded := o.unrecorded || !known)
      case Record(phase) =>
        if !o.pushed then o
        else o.Stored(IsFalse, phase).(checksum := Some(o.looking.value.spec), pushed := false, unrecorded := false)
      case Confirm(synced, phase) =>
        if o.pushed || o.holds != Some(o.looking.value.spec) then o
        else
          o.Stored(synced, phase).(confirmed := if synced.IsTrue? then Some(o.looking.value.spec) else o.confirmed)
      case Fail(phase) => if o.pushed then o else o.Stored(IsFalse, phase)
      case Stamp => if o.pushed then o else o.Stored(o.synced, o.phase)
      case _ => o
  }

  predicate Done<S>(o: Managed<S>) { o.synced.IsTrue? && o.phase == "Succeeded" }

  /** The success on record is of the present specification. */
  predicate SucceededForPresent<S(==)>(o: Managed<S>) { Done(o) && o.confirmed == Some(o.spec) }

  /** What is true of every object, whoever acts on it. */
  predicate Fits<S(==)>(o: Managed<S>) {
    && o.generation > 0 && !o.kind.OtherKind? && (o.pushed ==> o.looking.Some? && o.holds == Some(o.looking.value.spec))
    && if o.kind.PlaybookTemplate? then PlaybookFits(o) else RecordFits(o)
  }

  /** A playbook's specification is never rewritten. */
  predicate PlaybookFits<S(==)>(o: Managed<S>) {
    && o.generation == 1 && (o.looking.Some? ==> o.looking == Some(o.Current()))
    && o.holds.None? && !o.pushed && !o.unrecorded && (o.synced.IsTrue? ==> o.confirmed == Some(o.spec))
  }

  /** With the last push on record, the checksum is of what the agent holds, and of what a true condition confirmed. */
  predicate RecordFits<S(==)>(o: Managed<S>) {
    && (!o.unrecorded && !o.pushed ==> o.checksum == o.holds)
    && (o.synced.IsTrue? ==> o.confirmed.Some?)
    && (!o.unrecorded && o.synced.IsTrue? ==> o.checksum == o.confirmed)
  }

  /** What it is and what its owner wants of it is not the controller's to change. */
  lemma OwnKeepsSpec<S>(o: Managed<S>, s: OwnStep)
    ensures var p := Own(o, s);
            p.kind == o.kind && p.role == o.role && p.spec == o.spec && p.generation == o.generation
  {
  }

  lemma OwnKeepsFits<S>(o: Managed<S>, s: OwnStep)
    requires Fits(o)
    ensures Fits(Own(o, s))
  {
  }

  /** A success on record is of the present specification: always a playbook's, and a deployment's exactly when the
      checksum on record is the present specification's, provided its last push is on record. */
  lemma SuccessIsPresentExactly<S>(o: Managed<S>)
    requires Fits(o) && Done(o) && !o.unrecorded
    ensures o.kind.PlaybookTemplate? ==> SucceededForPresent(o)
    ensures o.kind.PlaybookDeploymentTemplate? ==> (SucceededForPresent(o) <==> o.checksum == Some(o.spec))
  {
  }

  /** That the present generation is observed says less: a pass over a paused agent stamps it. */
  lemma StampObserves<S>(o: Managed<S>)
    requires o.looking.None? && !o.pushed
    ensures Own(Own(o, Look), Stamp) == o.(observed := o.generation)
  {
  }
}

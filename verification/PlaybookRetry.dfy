/**
 The phase machine that runs one playbook on an agent (agent/pkg/controllers/playbook.go).

 `Reconcile` is the controller's method over a stored object, an in-memory copy of it and a deferred status
 patch; `Step` is what one pass does to the status. The lemmas are about every sequence of passes, whatever the
 clock, the preparation, the command and the status patch do.
 */
module PlaybookRetry {
  import opened Common
  import opened Backoff

  datatype Phase = NoPhase | Unknown | Pending | Running | Succeeded | Failed

  datatype Status = Status(phase: Phase, failed: int, execution: Condition, failure: Condition)

  const INITIAL := Status(NoPhase, 0, Unset, Unset)

  /** The part of a playbook object that the controller only reads. */
  datatype Meta = Meta(created: int, backoffLimit: int)

  /** How ansible-playbook ends: with a nil error, with a nil error after the context expired, or with an error. */
  datatype RunEnd = Completed | TimedOut | Broken

  /** What one pass meets. */
  datatype Input = Input(now: int, prepared: bool, run: RunEnd, patchLost: bool)

  /** After an expired context the source returns the command's own error, which is nil there. */
  predicate RunReturnsError(r: RunEnd) { r.Broken? }

  predicate Terminal(s: Status) { s.execution == IsTrue || s.failure == IsTrue }

  predicate Exhausted(m: Meta, s: Status) { s.failed >= m.backoffLimit }

  predicate Waiting(m: Meta, s: Status, now: int) {
    s.failed > 0 && now < m.created + GetBackoff(s.failed)
  }

  /** This pass starts the command. */
  predicate Runs(m: Meta, s: Status, i: Input) {
    !Terminal(s) && !Exhausted(m, s) && !Waiting(m, s, i.now) && s.phase == Running
  }

  /** This pass prepares the host for the command. */
  predicate Prepares(m: Meta, s: Status, i: Input) {
    !Terminal(s) && !Exhausted(m, s) && !Waiting(m, s, i.now) && s.phase == Pending
  }

  /** One failure on record. */
  function Fail(s: Status, next: Phase): Status {
    s.(phase := next, failed := s.failed + 1, execution := IsFalse)
  }

  /** The status that one pass computes. */
  function Step(m: Meta, s: Status, i: Input): Status {
    if Terminal(s) then s
    else if Exhausted(m, s) then s.(phase := Failed, failure := IsTrue)
    else if Waiting(m, s, i.now) then s
    else match s.phase
      case NoPhase | Unknown | Failed => s.(phase := Pending)
      case Pending => if i.prepared then s.(phase := Running) else Fail(s, Running)
      case Running => if RunReturnsError(i.run) then Fail(s, Failed) else s.(phase := Succeeded, execution := IsTrue)
      case Succeeded => s
  }

  function Commit(m: Meta, s: Status, i: Input): Status {
    if i.patchLost then s else Step(m, s, i)
  }

  // ---- The controller's method ------------------------------------------------------------------

  /** An object as the API server holds it, and as the controller changes it in memory. */
  class Playbook {
    const meta: Meta
    var phase: Phase
    var failed: int
    var execution: Condition
    var failure: Condition

    constructor (meta: Meta, s: Status)
      ensures this.meta == meta && Value() == s
    {
      this.meta := meta;
      phase, failed, execution, failure := s.phase, s.failed, s.execution, s.failure;
    }

    function Value(): Status
      reads this
    {
      Status(phase, failed, execution, failure)
    }

    method Patch(s: Status)
      modifies this
      ensures Value() == s
    {
      phase, failed, execution, failure := s.phase, s.failed, s.execution, s.failure;
    }
  }

  /** The body of the pass, on the in-memory object. */
  method Process(pb: Playbook, i: Input) returns (prepares: bool, ran: bool, requeueAfter: int)
    modifies pb
    ensures pb.Value() == Step(pb.meta, old(pb.Value()), i)
    ensures prepares == Prepares(pb.meta, old(pb.Value()), i)
    ensures ran == Runs(pb.meta, old(pb.Value()), i)
    ensures var live := old(pb.execution) != IsTrue && old(pb.failure) != IsTrue
                        && old(pb.failed) < pb.meta.backoffLimit;
            var due := pb.meta.created + Min(10_000_000_000 * Pow2(Max(0, old(pb.failed) - 1)), 360_000_000_000);
            var waits := live && old(pb.failed) > 0 && i.now < due;
            && (requeueAfter > 0 <==> waits) && (waits ==> i.now + requeueAfter == due)
            && (waits ==> pb.Value() == old(pb.Value()) && !prepares && !ran)
            && (prepares <==> live && !waits && old(pb.phase) == Pending)
            && (ran <==> live && !waits && old(pb.phase) == Running)
            && (live && !waits && old(pb.phase) in {NoPhase, Unknown, Failed} ==>
                  pb.phase == Pending && pb.failed == old(pb.failed))
            && (prepares ==> pb.phase == Running && pb.failed == old(pb.failed) + if i.prepared then 0 else 1)
            && (ran ==> pb.phase == (if i.run.Broken? then Failed else Succeeded)
                        && pb.failed == old(pb.failed) + if i.run.Broken? then 1 else 0)
  {
    if pb.failed > 0 { BackoffIsCappedDoubling(pb.failed); }
    prepares, ran, requeueAfter := false, false, 0;
    if pb.execution == IsTrue || pb.failure == IsTrue {
      return;
    }
    if pb.failed >= pb.meta.backoffLimit {
      pb.phase := Failed;
      pb.failure := IsTrue;
      return;
    }
    if pb.failed > 0 {
      var backoffTime := pb.meta.created + GetBackoff(pb.failed);
      if i.now < backoffTime {
        requeueAfter := backoffTime - i.now;
        return;
      }
    }
    if pb.phase == NoPhase || pb.phase == Unknown || pb.phase == Failed {
      pb.phase := Pending;
      return;
    }
    if pb.phase == Pending {
      prepares := true;
      if !i.prepared {
        pb.phase := Failed;
        pb.failed := pb.failed + 1;
        pb.execution := IsFalse;
      }
      // the failed preparation falls through to this line
      pb.phase := Running;
      return;
    }
    if pb.phase == Running {
      ran := true;
      if RunReturnsError(i.run) {
        pb.phase := Failed;
        pb.failed := pb.failed + 1;
        pb.execution := IsFalse;
        return;
      }
      pb.phase := Succeeded;
      pb.execution := IsTrue;
    }
  }

  /** Read, process a copy, and patch the status whatever happened; the patch may be lost. */
  method Reconcile(stored: Playbook, i: Input) returns (prepares: bool, ran: bool, requeueAfter: int)
    modifies stored
    ensures stored.Value() == Commit(stored.meta, old(stored.Value()), i)
    ensures prepares == Prepares(stored.meta, old(stored.Value()), i)
    ensures ran == Runs(stored.meta, old(stored.Value()), i)
    ensures i.patchLost ==> stored.Value() == old(stored.Value())
  {
    var pb := new Playbook(stored.meta, stored.Value());
    prepares, ran, requeueAfter := Process(pb, i);
    if !i.patchLost {
      stored.Patch(pb.Value());
    }
  }

  // ---- What every run keeps ---------------------------------------------------------------------

  ghost predicate Inv(m: Meta, s: Status) {
    && 0 <= s.failed <= Max(0, m.backoffLimit)
    && !(s.execution == IsTrue && s.failure == IsTrue)
    && (s.phase == Succeeded <==> s.execution == IsTrue)
    && (s.failure == IsTrue ==> s.phase == Failed && Exhausted(m, s))
    && s.phase != Unknown
  }

  function After(m: Meta, s: Status, ins: seq<Input>): Status
    decreases |ins|
  {
    if ins == [] then s else After(m, Commit(m, s, ins[0]), ins[1..])
  }

  function RunCount(m: Meta, s: Status, ins: seq<Input>): nat
    decreases |ins|
  {
    if ins == [] then 0
    else (if Runs(m, s, ins[0]) then 1 else 0) + RunCount(m, Commit(m, s, ins[0]), ins[1..])
  }

  function LostCount(ins: seq<Input>): nat {
    if ins == [] then 0 else (if ins[0].patchLost then 1 else 0) + LostCount(ins[1..])
  }

  /** Passes that change the stored status. */
  function ProductiveCount(m: Meta, s: Status, ins: seq<Input>): nat
    decreases |ins|
  {
    if ins == [] then 0
    else (if Commit(m, s, ins[0]) != s then 1 else 0) + ProductiveCount(m, Commit(m, s, ins[0]), ins[1..])
  }

  /** Some pass ran the command, saw no error, and its status was stored. */
  predicate SomeRunSucceeded(m: Meta, s: Status, ins: seq<Input>)
    decreases |ins|
  {
    ins != [] &&
    ((Runs(m, s, ins[0]) && !RunReturnsError(ins[0].run) && !ins[0].patchLost)
     || SomeRunSucceeded(m, Commit(m, s, ins[0]), ins[1..]))
  }

  lemma InvInitial(m: Meta)
    ensures Inv(m, INITIAL)
  {
  }

  lemma InvStep(m: Meta, s: Status, i: Input)
    requires Inv(m, s)
    ensures Inv(m, Commit(m, s, i))
  {
  }

  lemma {:induction false} InvAfter(m: Meta, s: Status, ins: seq<Input>)
    requires Inv(m, s)
    ensures Inv(m, After(m, s, ins))
    decreases |ins|
  {
    if ins != [] {
      InvStep(m, s, ins[0]);
      InvAfter(m, Commit(m, s, ins[0]), ins[1..]);
    }
  }

  /** In every reachable status: the counter stays in range, the two conditions exclude each other, and phase
      Succeeded is exactly a true Execution condition. */
  lemma InvAlways(m: Meta, ins: seq<Input>)
    ensures Inv(m, After(m, INITIAL, ins))
  {
    InvInitial(m);
    InvAfter(m, INITIAL, ins);
  }

  /** A terminal status never changes again. */
  lemma {:induction false} TerminalIsAbsorbing(m: Meta, s: Status, ins: seq<Input>)
    requires Terminal(s)
    ensures After(m, s, ins) == s && RunCount(m, s, ins) == 0
    decreases |ins|
  {
    if ins != [] { TerminalIsAbsorbing(m, s, ins[1..]); }
  }

  /** Execution is true at the end exactly when some stored run returned no error. */
  lemma {:induction false} ExecutionMeansARunSucceeded(m: Meta, s: Status, ins: seq<Input>)
    requires Inv(m, s) && s.execution != IsTrue
    ensures After(m, s, ins).execution == IsTrue <==> SomeRunSucceeded(m, s, ins)
    decreases |ins|
  {
    if ins != [] {
      var t := Commit(m, s, ins[0]);
      InvStep(m, s, ins[0]);
      if t.execution == IsTrue {
        TerminalIsAbsorbing(m, t, ins[1..]);
      } else {
        ExecutionMeansARunSucceeded(m, t, ins[1..]);
      }
    }
  }

  /** Upper bound of the passes that can still change the status. */
  function Measure(m: Meta, s: Status): int {
    if Terminal(s) then 0
    else if Exhausted(m, s) then 1
    else
      var offset := match s.phase case Pending => 0 case Running => -1 case _ => 1;
      3 * (m.backoffLimit - s.failed) + offset
  }

  /** Every pass on a live playbook that is not waiting for its backoff brings the end nearer. */
  lemma NotWaitingIsProgress(m: Meta, s: Status, i: Input)
    requires Inv(m, s) && !Terminal(s)
    requires !i.patchLost
    requires Exhausted(m, s) || !Waiting(m, s, i.now)
    ensures 0 <= Measure(m, Commit(m, s, i)) < Measure(m, s)
  {
  }

  lemma {:induction false} ProductivePassesAreBounded(m: Meta, s: Status, ins: seq<Input>)
    requires Inv(m, s)
    ensures ProductiveCount(m, s, ins) <= Measure(m, s)
    decreases |ins|
  {
    if ins != [] {
      var t := Commit(m, s, ins[0]);
      InvStep(m, s, ins[0]);
      if t != s {
        NotWaitingIsProgress(m, s, ins[0]);
      }
      ProductivePassesAreBounded(m, t, ins[1..]);
    }
  }

  /** From creation on, at most three passes per allowed attempt and one for the verdict change the status. */
  lemma ThreePassesPerAttempt(m: Meta, ins: seq<Input>)
    ensures ProductiveCount(m, INITIAL, ins) <= 3 * Max(0, m.backoffLimit) + 1
  {
    ProductivePassesAreBounded(m, INITIAL, ins);
  }

  /** How many runs a status can account for. */
  function Accounted(s: Status): int { s.failed + (if s.execution == IsTrue then 1 else 0) }

  lemma {:induction false} RunsAreAccounted(m: Meta, s: Status, ins: seq<Input>)
    requires Inv(m, s)
    ensures RunCount(m, s, ins) <= Accounted(After(m, s, ins)) - Accounted(s) + LostCount(ins)
    decreases |ins|
  {
    if ins != [] {
      InvStep(m, s, ins[0]);
      RunsAreAccounted(m, Commit(m, s, ins[0]), ins[1..]);
    }
  }

  lemma {:induction false} SuccessLeavesRoom(m: Meta, s: Status, ins: seq<Input>)
    requires Inv(m, s) && Accounted(s) <= Max(0, m.backoffLimit)
    ensures Accounted(After(m, s, ins)) <= Max(0, m.backoffLimit)
    decreases |ins|
  {
    if ins != [] {
      InvStep(m, s, ins[0]);
      SuccessLeavesRoom(m, Commit(m, s, ins[0]), ins[1..]);
    }
  }

  /** The command is started at most BackoffLimit times, plus once for every lost status patch. */
  lemma RunsAreBounded(m: Meta, ins: seq<Input>)
    ensures RunCount(m, INITIAL, ins) <= Max(0, m.backoffLimit) + LostCount(ins)
  {
    RunsAreAccounted(m, INITIAL, ins);
    SuccessLeavesRoom(m, INITIAL, ins);
  }

  /** Stored passes that prepared the host. */
  function PreparationCount(m: Meta, s: Status, ins: seq<Input>): nat
    decreases |ins|
  {
    if ins == [] then 0
    else (if Prepares(m, s, ins[0]) && !ins[0].patchLost then 1 else 0)
         + PreparationCount(m, Commit(m, s, ins[0]), ins[1..])
  }

  lemma {:induction false} RunsAreCovered(m: Meta, s: Status, ins: seq<Input>)
    ensures RunCount(m, s, ins)
            <= PreparationCount(m, s, ins) + LostCount(ins) + if s.phase == Running then 1 else 0
    decreases |ins|
  {
    if ins != [] {
      RunsAreCovered(m, Commit(m, s, ins[0]), ins[1..]);
    }
  }

  /** Over every sequence of passes, so over every beginning of one: each start of the command has a preparation of its
      own before it, in a pass of its own; only a lost patch may repeat a start. */
  lemma EveryRunIsPrepared(m: Meta, ins: seq<Input>)
    ensures RunCount(m, INITIAL, ins) <= PreparationCount(m, INITIAL, ins) + LostCount(ins)
  {
    RunsAreCovered(m, INITIAL, ins);
  }

  lemma {:induction false} UnpreparedStaysFailed(m: Meta, s: Status, ins: seq<Input>)
    requires (forall i | i in ins :: !i.prepared) && s.failed >= 0 && (s.phase == Running ==> s.failed > 0)
    ensures After(m, s, ins).phase == Running ==> After(m, s, ins).failed > 0
    decreases |ins|
  {
    if ins != [] {
      assert ins[0] in ins;
      UnpreparedStaysFailed(m, Commit(m, s, ins[0]), ins[1..]);
    }
  }

  /** If no preparation succeeds, the command never gets to run without a failure on record. */
  lemma UnpreparedRunningHasFailed(m: Meta, ins: seq<Input>)
    requires forall i | i in ins :: !i.prepared
    ensures After(m, INITIAL, ins).phase == Running ==> After(m, INITIAL, ins).failed > 0
  {
    UnpreparedStaysFailed(m, INITIAL, ins);
  }

  /** No command starts between a recorded failure and the end of its backoff, counted from creation; with f
      failures on record the capped doubling of 10 seconds has passed. */
  lemma RunsRespectBackoff(m: Meta, s: Status, i: Input)
    requires Runs(m, s, i) && s.failed > 0
    ensures i.now >= m.created + Min(10_000_000_000 * Pow2(s.failed - 1), 360_000_000_000)
  {
    BackoffIsCappedDoubling(s.failed);
  }

  // ---- Runs a reader would not expect -----------------------------------------------------------

  /** A failed preparation is counted and falls through to Running all the same. So the next pass starts the command
      exactly when another attempt is allowed and the backoff after this failure is over. */
  lemma FailedPreparationStillRuns(m: Meta, s: Status, i: Input, j: Input)
    requires Inv(m, s) && s.phase == Pending && !i.prepared && !i.patchLost
    requires !Terminal(s) && !Exhausted(m, s) && !Waiting(m, s, i.now)
    ensures var t := Commit(m, s, i);
            && t == Status(Running, s.failed + 1, IsFalse, s.failure)
            && (Runs(m, t, j) <==> s.failed + 1 < m.backoffLimit && j.now >= m.created + GetBackoff(s.failed + 1))
  {
  }

  /** Passes that start the command although none of them prepares it. */
  predicate StartsUnprepared(m: Meta, s: Status, ins: seq<Input>) {
    (forall j | j in ins :: !j.prepared) && RunCount(m, s, ins) > 0
  }

  /** So, without a successful preparation, some later pass starts the command exactly when another attempt is
      allowed. */
  lemma UnpreparedCommandStartsExactly(m: Meta, s: Status, i: Input)
    requires Inv(m, s) && s.phase == Pending && !i.prepared && !i.patchLost
    requires !Terminal(s) && !Exhausted(m, s) && !Waiting(m, s, i.now)
    ensures (exists ins :: StartsUnprepared(m, Commit(m, s, i), ins)) <==>
            s.failed + 1 < m.backoffLimit
  {
    var t := Commit(m, s, i);
    if s.failed + 1 < m.backoffLimit {
      var j := Input(m.created + GetBackoff(s.failed + 1), false, Completed, false);
      FailedPreparationStillRuns(m, s, i, j);
      assert StartsUnprepared(m, t, [j]);
    } else {
      InvStep(m, s, i);
      forall ins ensures !StartsUnprepared(m, t, ins) {
        ExhaustedNeverRuns(m, t, ins);
      }
    }
  }

  lemma {:induction false} ExhaustedNeverRuns(m: Meta, s: Status, ins: seq<Input>)
    requires Exhausted(m, s)
    ensures RunCount(m, s, ins) == 0
    decreases |ins|
  {
    if ins != [] {
      ExhaustedNeverRuns(m, Commit(m, s, ins[0]), ins[1..]);
    }
  }

  /** Some pass ran the command, it was cut off by its timeout, and the status was stored. */
  predicate SomeRunTimedOut(m: Meta, s: Status, ins: seq<Input>)
    decreases |ins|
  {
    ins != [] &&
    ((Runs(m, s, ins[0]) && ins[0].run.TimedOut? && !ins[0].patchLost)
     || SomeRunTimedOut(m, Commit(m, s, ins[0]), ins[1..]))
  }

  /** A timeout counts as a success: over all passes in which no command ever completes, Execution becomes true exactly
      when some command was cut off by its timeout. */
  lemma TimeoutCountsAsSuccess(m: Meta, ins: seq<Input>)
    requires forall i | i in ins :: !i.run.Completed?
    ensures After(m, INITIAL, ins).execution == IsTrue <==> SomeRunTimedOut(m, INITIAL, ins)
  {
    InvInitial(m);
    ExecutionMeansARunSucceeded(m, INITIAL, ins);
    OnlyTimeouts(m, INITIAL, ins);
  }

  lemma {:induction false} OnlyTimeouts(m: Meta, s: Status, ins: seq<Input>)
    requires forall i | i in ins :: !i.run.Completed?
    ensures SomeRunSucceeded(m, s, ins) <==> SomeRunTimedOut(m, s, ins)
    decreases |ins|
  {
    if ins != [] {
      assert ins[0] in ins;
      OnlyTimeouts(m, Commit(m, s, ins[0]), ins[1..]);
    }
  }
}

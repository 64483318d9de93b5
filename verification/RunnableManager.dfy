/**
 The start and stop protocol of the agent's runnables (agent/pkg/manager/manager.go).

 `World` is the state of one Manager.Start: the goroutine that runs it, one goroutine a runnable, the two goroutines
 that wait, the contexts and the grace timer. `Apply` lets one of them take a step. A runnable may return at any
 time; returning an error blocks it until somebody receives from the error channel.
 */
module RunnableManager {
  import opened Common

  /** A runnable's goroutine. `Failing`: its error is not received yet, so it still counts as running. */
  datatype Task = NotStarted | Running | Failing | Exited

  /** Where Start is. The index counts the runnables already handled. */
  datatype Stage =
    | StartingMain(next: nat)
    | AwaitingReady(next: nat)
    | StartingRegular(next: nat)
    | Serving
    | Stopping
    | Ended

  /** How the wait for the end came out. */
  datatype Shutdown = Pending | AllDone | GraceExpired

  /** `watching`: the goroutine that cancels the main context after the regular runnables is on its way. */
  datatype World = World(
    mains: seq<Task>, ready: seq<bool>, regulars: seq<Task>, stage: Stage, done: bool, watching: bool,
    mainCancelled: bool, internalCancelled: bool, shutdown: Shutdown, grace: int)

  datatype Who = Main(index: nat) | Regular(index: nat)

  datatype Step =
    | StartOne                    // the next runnable, or on to the next stage
    | BecomeReady(i: nat)
    | SeeReady
    | Return(who: Who, failing: bool)
    | Receive(who: Who)           // Start's select, or the draining goroutine
    | OuterDone
    | SeeDone
    | Watch                       // the regular runnables have ended: cancel the main context
    | AllEnded
    | Expire
    | Finish

  function New(mains: nat, regulars: nat, grace: int): World {
    World(seq(mains, i => NotStarted), seq(mains, i => false), seq(regulars, i => NotStarted),
          StartingMain(0), false, false, false, false, Pending, grace)
  }

  predicate Live(t: Task) { t.Running? || t.Failing? }

  predicate Quiet(ts: seq<Task>) { forall i | 0 <= i < |ts| :: !Live(ts[i]) }

  function Get(w: World, who: Who): Task {
    match who
    case Main(i) => if i < |w.mains| then w.mains[i] else NotStarted
    case Regular(i) => if i < |w.regulars| then w.regulars[i] else NotStarted
  }

  function Set(w: World, who: Who, t: Task): World {
    match who
    case Main(i) => if i < |w.mains| then w.(mains := w.mains[i := t]) else w
    case Regular(i) => if i < |w.regulars| then w.(regulars := w.regulars[i := t]) else w
  }

  /** Start returns: the internal context is cancelled and the wait for the end begins. */
  function Stop(w: World): World { w.(stage := Stopping, internalCancelled := true) }

  function Apply(w: World, s: Step): World {
    match s
    case StartOne =>
      (match w.stage
       case StartingMain(i) =>
         if i < |w.mains| then w.(mains := w.mains[i := Running], stage := StartingMain(i + 1))
         else w.(stage := AwaitingReady(0))
       case StartingRegular(i) =>
         if i < |w.regulars| then w.(regulars := w.regulars[i := Running], stage := StartingRegular(i + 1))
         else w.(stage := Serving, watching := true)
       case _ => w)
    case BecomeReady(i) =>
      if i < |w.mains| && i < |w.ready| && w.mains[i].Running? then w.(ready := w.ready[i := true]) else w
    case SeeReady =>
      if !w.stage.AwaitingReady? then w
      else if w.stage.next >= |w.ready| then w.(stage := StartingRegular(0))
      else if w.ready[w.stage.next] then w.(stage := AwaitingReady(w.stage.next + 1))
      else w
    case Return(who, failing) =>
      if Get(w, who).Running? then Set(w, who, if failing then Failing else Exited) else w
    case Receive(who) =>
      if !Get(w, who).Failing? then w
      else if w.stage.AwaitingReady? && w.stage.next < |w.ready| then Stop(Set(w, who, Exited))
      else if w.stage.Serving? then Stop(Set(w, who, Exited))
      else if w.stage.Stopping? then Set(w, who, Exited)
      else w
    case OuterDone => w.(done := true, internalCancelled := true)
    case SeeDone => if w.stage.Serving? && w.done then Stop(w) else w
    case Watch => if w.watching && Quiet(w.regulars) then w.(mainCancelled := true) else w
    case AllEnded =>
      if w.stage.Stopping? && w.shutdown.Pending? && Quiet(w.regulars) && Quiet(w.mains)
        then w.(shutdown := AllDone)
        else w
    case Expire =>
      if w.stage.Stopping? && w.shutdown.Pending? && w.grace > 0 then w.(shutdown := GraceExpired) else w
    case Finish =>
      if w.stage.Stopping? && !w.shutdown.Pending? then w.(stage := Ended, mainCancelled := true) else w
  }

  function Run(w: World, steps: seq<Step>): World
    decreases |steps|
  {
    if steps == [] then w else Run(Apply(w, steps[0]), steps[1..])
  }

  // ---- Order ------------------------------------------------------------------------------------

  predicate NoneStarted(ts: seq<Task>, from: nat) { forall i | from <= i < |ts| :: ts[i].NotStarted? }

  predicate AllReady(ready: seq<bool>, upTo: nat) { upTo <= |ready| && forall i | 0 <= i < upTo :: ready[i] }

  predicate Inv(w: World) {
    && |w.ready| == |w.mains|
    && (match w.stage
        case StartingMain(i) => i <= |w.mains| && NoneStarted(w.mains, i) && NoneStarted(w.regulars, 0)
        case AwaitingReady(i) => AllReady(w.ready, i) && NoneStarted(w.regulars, 0)
        case StartingRegular(i) => AllReady(w.ready, |w.ready|) && i <= |w.regulars| && NoneStarted(w.regulars, i)
        case Serving => w.watching
        case Stopping => w.internalCancelled
        case Ended => !w.shutdown.Pending? && w.mainCancelled)
    && (!w.stage.Stopping? && !w.stage.Ended? ==> w.shutdown.Pending?)
    && (w.done || w.stage.Stopping? || w.stage.Ended? ==> w.internalCancelled)
    && (w.watching ==> w.stage.Serving? || w.stage.Stopping? || w.stage.Ended?)
    && (NoneStarted(w.regulars, 0) || AllReady(w.ready, |w.ready|))
    && (w.mainCancelled ==> Quiet(w.regulars) || w.shutdown.GraceExpired?)
    && (w.mainCancelled ==> w.watching || w.stage.Ended?)
    && (w.shutdown.AllDone? ==> Quiet(w.regulars) && Quiet(w.mains))
    && (w.shutdown.GraceExpired? ==> w.grace > 0)
  }

  lemma TaskKeepsInv(w: World, who: Who, t: Task)
    requires Inv(w) && Live(Get(w, who)) && (t.Failing? || t.Exited?)
    ensures Inv(Set(w, who, t))
  {
    var v := Set(w, who, t);
    match who
    case Main(i) => assert !Quiet(w.mains);
    case Regular(i) => assert !Quiet(w.regulars);
  }

  lemma StopKeepsInv(w: World)
    requires Inv(w) && (w.stage.AwaitingReady? || w.stage.Serving?)
    ensures Inv(Stop(w))
  {
  }

  lemma StartKeepsInv(w: World)
    requires Inv(w)
    ensures Inv(Apply(w, StartOne))
  {
  }

  lemma TaskStepKeepsInv(w: World, s: Step)
    requires Inv(w) && (s.Return? || s.Receive?)
    ensures Inv(Apply(w, s))
  {
    match s
    case Return(who, failing) =>
      if Get(w, who).Running? { TaskKeepsInv(w, who, if failing then Failing else Exited); }
    case Receive(who) =>
      if Get(w, who).Failing? {
        TaskKeepsInv(w, who, Exited);
        var v := Set(w, who, Exited);
        if v.stage.AwaitingReady? || v.stage.Serving? { StopKeepsInv(v); }
      }
  }

  lemma OtherStepKeepsInv(w: World, s: Step)
    requires Inv(w) && !s.StartOne? && !s.Return? && !s.Receive?
    ensures Inv(Apply(w, s))
  {
  }

  lemma StepKeepsInv(w: World, s: Step)
    requires Inv(w)
    ensures Inv(Apply(w, s))
  {
    if s.StartOne? {
      StartKeepsInv(w);
    } else if s.Return? || s.Receive? {
      TaskStepKeepsInv(w, s);
    } else {
      OtherStepKeepsInv(w, s);
    }
  }

  lemma {:induction false} RunKeepsInv(w: World, steps: seq<Step>)
    requires Inv(w)
    ensures Inv(Run(w, steps))
    decreases |steps|
  {
    if steps != [] {
      StepKeepsInv(w, steps[0]);
      RunKeepsInv(Apply(w, steps[0]), steps[1..]);
    }
  }

  /** In every interleaving: no regular runnable has started before every main runnable was ready; the main context is
      cancelled only after every started regular runnable has exited or the grace period has expired; and an end without
      the grace error means that every started runnable has exited. */
  lemma StartAndStopAreOrdered(mains: nat, regulars: nat, grace: int, steps: seq<Step>)
    ensures var w := Run(New(mains, regulars, grace), steps);
            && |w.mains| == |w.ready|
            && ((exists i :: 0 <= i < |w.regulars| && !w.regulars[i].NotStarted?) ==>
                  forall i | 0 <= i < |w.ready| :: w.ready[i])
            && (w.mainCancelled ==> Quiet(w.regulars) || w.shutdown.GraceExpired?)
            && (w.stage.Ended? && !w.shutdown.GraceExpired? ==> Quiet(w.regulars) && Quiet(w.mains))
            && (w.done || w.stage.Stopping? || w.stage.Ended? ==> w.internalCancelled)
  {
    RunKeepsInv(New(mains, regulars, grace), steps);
  }

  // ---- Service ----------------------------------------------------------------------------------

  /** How far a start-up has to go, with every runnable that was started running. */
  function ToStart(w: World): nat {
    match w.stage
    case StartingMain(i) => 2 + |w.regulars| + 2 * |w.ready| + 2 + (if i <= |w.mains| then |w.mains| - i else 0)
    case AwaitingReady(i) =>
      2 + |w.regulars| + (if i <= |w.ready| then 2 * (|w.ready| - i) else 0)
      + (if i < |w.ready| && w.ready[i] then 0 else 1)
    case StartingRegular(i) => 1 + (if i <= |w.regulars| then |w.regulars| - i else 0)
    case _ => 0
  }

  /** Every runnable that Start has come to is running, and nobody asked for the end. */
  predicate StartsWell(w: World) {
    && |w.ready| == |w.mains| && !w.done && !w.internalCancelled && w.shutdown.Pending?
    && (match w.stage
        case StartingMain(i) => i <= |w.mains| && forall k | 0 <= k < i :: w.mains[k].Running?
        case AwaitingReady(i) => i <= |w.ready| && forall k | 0 <= k < |w.mains| :: w.mains[k].Running?
        case StartingRegular(i) =>
          i <= |w.regulars| && (forall k | 0 <= k < |w.mains| :: w.mains[k].Running?)
          && forall k | 0 <= k < i :: w.regulars[k].Running?
        case Serving =>
          (forall k | 0 <= k < |w.mains| :: w.mains[k].Running?)
          && forall k | 0 <= k < |w.regulars| :: w.regulars[k].Running?
        case _ => false)
  }

  lemma StartUpProceeds(w: World) returns (s: Step)
    requires StartsWell(w) && !w.stage.Serving?
    ensures StartsWell(Apply(w, s)) && ToStart(Apply(w, s)) < ToStart(w)
  {
    if w.stage.AwaitingReady? && w.stage.next < |w.ready| && !w.ready[w.stage.next] {
      s := BecomeReady(w.stage.next);
    } else if w.stage.AwaitingReady? {
      s := SeeReady;
    } else {
      s := StartOne;
    }
  }

  lemma {:induction false} StartUpCanServe(w: World) returns (steps: seq<Step>)
    requires StartsWell(w)
    ensures StartsWell(Run(w, steps)) && Run(w, steps).stage.Serving?
    decreases ToStart(w)
  {
    steps := [];
    if !w.stage.Serving? {
      var s := StartUpProceeds(w);
      var rest := StartUpCanServe(Apply(w, s));
      steps := [s] + rest;
      assert steps[1..] == rest;
    }
  }

  /** For any number of runnables in both tiers, all of them can come to run. */
  lemma ServiceIsReachable(mains: nat, regulars: nat, grace: int) returns (steps: seq<Step>)
    ensures var w := Run(New(mains, regulars, grace), steps);
            && w.stage.Serving? && |w.mains| == mains && |w.regulars| == regulars
            && (forall i | 0 <= i < mains :: w.mains[i].Running?)
            && (forall i | 0 <= i < regulars :: w.regulars[i].Running?)
  {
    steps := StartUpCanServe(New(mains, regulars, grace));
    SizesAreKept(New(mains, regulars, grace), steps);
  }

  lemma {:induction false} SizesAreKept(w: World, steps: seq<Step>)
    ensures |Run(w, steps).mains| == |w.mains| && |Run(w, steps).regulars| == |w.regulars|
    decreases |steps|
  {
    if steps != [] {
      StepKeepsSizes(w, steps[0]);
      SizesAreKept(Apply(w, steps[0]), steps[1..]);
    }
  }

  lemma SetKeepsSizes(w: World, who: Who, t: Task)
    ensures |Set(w, who, t).mains| == |w.mains| && |Set(w, who, t).regulars| == |w.regulars|
  {
  }

  lemma StepKeepsSizes(w: World, s: Step)
    ensures |Apply(w, s).mains| == |w.mains| && |Apply(w, s).regulars| == |w.regulars|
  {
    match s
    case Return(who, failing) => SetKeepsSizes(w, who, if failing then Failing else Exited);
    case Receive(who) => SetKeepsSizes(w, who, Exited);
    case _ =>
  }

  ghost predicate SomeFailing(w: World) { exists who :: Get(w, who).Failing? }

  /** Start leaves its service exactly when the outer context is done or some runnable has failed. */
  lemma ServiceEndsExactly(w: World)
    requires w.stage.Serving?
    ensures (exists s :: Apply(w, s).stage.Stopping?) <==> w.done || SomeFailing(w)
  {
    if w.done { assert Apply(w, SeeDone).stage.Stopping?; }
    if who :| Get(w, who).Failing? { assert Apply(w, Receive(who)).stage.Stopping?; }
  }

  /** While it waits for the main tier to be ready, exactly a failure ends it. */
  lemma StartUpEndsExactly(w: World)
    requires w.stage.AwaitingReady? && w.stage.next < |w.ready|
    ensures (exists s :: Apply(w, s).stage.Stopping?) <==> SomeFailing(w)
  {
    if who :| Get(w, who).Failing? { assert Apply(w, Receive(who)).stage.Stopping?; }
  }

  /** Whatever the runnables do, the timer ends the wait exactly when there is a grace period. */
  lemma GraceEndsExactly(w: World)
    requires w.stage.Stopping? && w.shutdown.Pending?
    ensures Run(w, [Expire, Finish]).stage.Ended? <==> w.grace > 0
    ensures w.grace > 0 ==> Run(w, [Expire, Finish]).shutdown.GraceExpired?
  {
    var v := Apply(w, Expire);
    assert [Expire, Finish][1..] == [Finish] && [Finish][1..] == [];
    assert Run(Apply(v, Finish), []) == Apply(v, Finish) && Run(v, [Finish]) == Apply(v, Finish);
  }

  // ---- An orderly end ---------------------------------------------------------------------------

  /** A step of a manager whose runnables return, without an error, once their context is cancelled. */
  predicate Orderly(w: World, s: Step) {
    match s
    case Return(Main(_), failing) => w.mainCancelled && !failing
    case Return(Regular(_), failing) => w.internalCancelled && !failing
    case Receive(_) => true
    case Watch => true
    case AllEnded => true
    case Finish => true
    case _ => false
  }

  function Left(ts: seq<Task>): nat {
    if ts == [] then 0
    else Left(ts[..|ts| - 1]) + (match Last(ts) case Running => 1 case Failing => 1 case _ => 0)
  }

  lemma {:induction false} LeftAfterExit(ts: seq<Task>, i: nat)
    requires i < |ts| && Live(ts[i])
    ensures Left(ts[i := Exited]) < Left(ts)
    decreases |ts|
  {
    var n := |ts| - 1;
    if i < n {
      LeftAfterExit(ts[..n], i);
      assert ts[i := Exited][..n] == ts[..n][i := Exited];
    } else {
      assert ts[i := Exited][..n] == ts[..n];
    }
  }

  function Measure(w: World): nat {
    Left(w.mains) + Left(w.regulars) + (if w.mainCancelled then 0 else 1) + (if w.shutdown.Pending? then 1 else 0)
    + (if w.stage.Ended? then 0 else 1)
  }

  predicate OrderlyRun(w: World, steps: seq<Step>)
    decreases |steps|
  {
    steps == [] || (Orderly(w, steps[0]) && OrderlyRun(Apply(w, steps[0]), steps[1..]))
  }

  predicate EndsInOrder(w: World, steps: seq<Step>) {
    var v := Run(w, steps);
    OrderlyRun(w, steps) && v.stage.Ended? && v.shutdown.AllDone? && Quiet(v.mains) && Quiet(v.regulars)
  }

  predicate NoneRunning(ts: seq<Task>) { forall i | 0 <= i < |ts| :: !ts[i].Running? }

  /** The main runnables will be told to stop, or none of them has to be. */
  predicate CanLeave(w: World) { w.watching || NoneRunning(w.mains) }

  /** Then the shutdown never gets stuck and needs no grace timer: some orderly step brings the end nearer. */
  lemma ShutdownProceeds(w: World) returns (s: Step)
    requires Inv(w) && w.stage.Stopping? && CanLeave(w)
    ensures Orderly(w, s) && Measure(Apply(w, s)) < Measure(w)
    ensures Apply(w, s).stage.Ended? || (Apply(w, s).stage.Stopping? && CanLeave(Apply(w, s)))
    ensures w.shutdown != GraceExpired ==> Apply(w, s).shutdown != GraceExpired
  {
    if !w.shutdown.Pending? {
      s := Finish;
    } else if i :| 0 <= i < |w.regulars| && Live(w.regulars[i]) {
      LeftAfterExit(w.regulars, i);
      s := if w.regulars[i].Running? then Return(Regular(i), false) else Receive(Regular(i));
    } else if w.watching && !w.mainCancelled {
      s := Watch;
    } else if i :| 0 <= i < |w.mains| && Live(w.mains[i]) {
      LeftAfterExit(w.mains, i);
      s := if w.mains[i].Running? then Return(Main(i), false) else Receive(Main(i));
    } else {
      s := AllEnded;
    }
  }

  lemma {:induction false} ShutdownCanEnd(w: World) returns (steps: seq<Step>)
    requires Inv(w) && w.stage.Stopping? && CanLeave(w) && !w.shutdown.GraceExpired?
    ensures EndsInOrder(w, steps)
    decreases Measure(w)
  {
    var s := ShutdownProceeds(w);
    StepKeepsInv(w, s);
    var v := Apply(w, s);
    if v.stage.Ended? {
      steps := [s];
      assert steps[1..] == [];
    } else {
      var rest := ShutdownCanEnd(v);
      steps := [s] + rest;
      assert steps[1..] == rest;
    }
  }

  /** A main runnable that nobody will tell to stop keeps Start from returning, whatever the others do in order. */
  lemma {:induction false} NobodyTellsMain(w: World, i: nat, steps: seq<Step>)
    requires Inv(w) && w.stage.Stopping? && !w.watching && w.shutdown.Pending? && !w.mainCancelled
    requires i < |w.mains| && w.mains[i].Running? && OrderlyRun(w, steps)
    ensures Run(w, steps).stage.Stopping?
    decreases |steps|
  {
    if steps != [] {
      StepKeepsInv(w, steps[0]);
      assert !Quiet(w.mains);
      NobodyTellsMain(Apply(w, steps[0]), i, steps[1..]);
    }
  }

  /** Without the grace timer, with runnables that return once their context is cancelled: an end with everything
      exited is within reach exactly when the main context will be cancelled (the goroutine for that was started,
      after a regular start) or no main runnable is left running. */
  lemma OrderlyEndExactly(w: World)
    requires Inv(w) && w.stage.Stopping? && !w.shutdown.GraceExpired?
    ensures (exists steps :: EndsInOrder(w, steps)) <==> CanLeave(w)
  {
    if CanLeave(w) {
      var steps := ShutdownCanEnd(w);
      assert EndsInOrder(w, steps);
    } else {
      var i :| 0 <= i < |w.mains| && w.mains[i].Running?;
      assert !Quiet(w.mains);
      forall steps ensures !EndsInOrder(w, steps) {
        if OrderlyRun(w, steps) {
          NobodyTellsMain(w, i, steps);
        }
      }
    }
  }

  // ---- Start-up failure -------------------------------------------------------------------------

  /** When a main runnable fails before all are ready, the goroutine that cancels the main context was never started.
      A main runnable that waits for its context then runs on, and without a grace period Start never returns. */
  lemma {:induction false} StartUpFailureHangs(w: World, i: nat, steps: seq<Step>)
    requires Inv(w) && w.stage.Stopping? && !w.watching && w.shutdown.Pending? && w.grace <= 0
    requires i < |w.mains| && w.mains[i].Running?
    requires forall failing :: Return(Main(i), failing) !in steps
    ensures var v := Run(w, steps);
            v.stage.Stopping? && v.shutdown.Pending? && !v.mainCancelled && i < |v.mains| && v.mains[i].Running?
    decreases |steps|
  {
    if steps != [] {
      var s := steps[0];
      assert s in steps;
      StepKeepsInv(w, s);
      assert !Quiet(w.mains);
      StartUpFailureHangs(Apply(w, s), i, steps[1..]);
    }
  }

  /** Such a state is reached when the second of two main runnables fails while the first one serves. */
  lemma StartUpCanFail(grace: int)
    ensures var w := Run(New(2, 0, grace), [StartOne, StartOne, StartOne, Return(Main(1), true), Receive(Main(1))]);
            w.stage.Stopping? && !w.watching && w.shutdown.Pending? && w.mains == [Running, Exited]
  {
    var steps := [StartOne, StartOne, StartOne, Return(Main(1), true), Receive(Main(1))];
    var w0 := New(2, 0, grace);
    assert w0.mains == [NotStarted, NotStarted];
    var w1 := Apply(w0, steps[0]);
    assert w1.mains == [Running, NotStarted];
    var w2 := Apply(w1, steps[1]);
    assert w2.mains == [Running, Running];
    var w3 := Apply(w2, steps[2]);
    var w4 := Apply(w3, steps[3]);
    assert w4.mains == [Running, Failing];
    var w5 := Apply(w4, steps[4]);
    assert w5.mains == [Running, Exited];
    assert Run(w4, steps[4..]) == Run(w5, steps[4..][1..]) && steps[4..][1..] == [];
    assert Run(w3, steps[3..]) == Run(w4, steps[3..][1..]) && steps[3..][1..] == steps[4..];
    assert Run(w2, steps[2..]) == Run(w3, steps[2..][1..]) && steps[2..][1..] == steps[3..];
    assert Run(w1, steps[1..]) == Run(w2, steps[1..][1..]) && steps[1..][1..] == steps[2..];
  }

  // ---- Adding runnables -------------------------------------------------------------------------

  datatype Runnable = Ready(id: nat) | Plain(id: nat)

  class Manager {
    var mainRunnables: seq<Runnable>
    var runnables: seq<Runnable>

    constructor ()
      ensures mainRunnables == [] && runnables == []
    {
      mainRunnables, runnables := [], [];
    }

    /** Each runnable joins exactly one tier, behind those added before it. */
    method Add(r: Runnable)
      modifies this
      ensures r.Ready? ==> mainRunnables == old(mainRunnables) + [r] && runnables == old(runnables)
      ensures !r.Ready? ==> mainRunnables == old(mainRunnables) && runnables == old(runnables) + [r]
    {
      if r.Ready? {
        mainRunnables := mainRunnables + [r];
      } else {
        runnables := runnables + [r];
      }
    }
  }
}

/**
 The health prober (cluster-api-provider-kubeforce/controllers/prober): a worker's threshold hysteresis, the cache of
 results with its stream of updates, and the registry of workers.
 */
module Prober {
  import opened Common

  type Key = string

  datatype Params = Params(successThreshold: int, failureThreshold: int)

  /** One probe: whether it succeeded, under the parameters of that moment. */
  datatype Probe = Probe(success: bool, params: Params)

  function Threshold(success: bool, p: Params): int {
    if success then p.successThreshold else p.failureThreshold
  }

  // ---- The meaning of a worker's probes ---------------------------------------------------------

  function Front<T>(s: seq<T>): seq<T>
    requires s != []
  {
    s[..|s| - 1]
  }

  /** How many probes in a row, up to the last one, had its result. */
  function RunLength(h: seq<Probe>): nat {
    if h == [] then 0
    else if |h| > 1 && h[|h| - 2].success == Last(h).success then RunLength(Front(h)) + 1
    else 1
  }

  predicate Completes(h: seq<Probe>) {
    h != [] && RunLength(h) >= Threshold(Last(h).success, Last(h).params)
  }

  /** The result on record after a worker's probes, over what was on record before. */
  function Cached(before: Option<bool>, h: seq<Probe>): Option<bool> {
    if h == [] then before
    else if Completes(h) then Some(Last(h).success)
    else Cached(before, Front(h))
  }

  /** The last n probes had result r. */
  predicate EndsWith(h: seq<Probe>, n: int, r: bool) {
    n <= |h| && forall i | 0 <= i < |h| && |h| - n <= i :: h[i].success == r
  }

  /** The counter is the length of the longest suffix of equal results. */
  lemma {:induction false} RunLengthIsLongestEqualSuffix(h: seq<Probe>, n: nat)
    requires h != []
    ensures EndsWith(h, n, Last(h).success) <==> n <= RunLength(h)
    decreases |h|
  {
    if |h| > 1 {
      var f := Front(h);
      if h[|h| - 2].success == Last(h).success {
        if n > 0 {
          RunLengthIsLongestEqualSuffix(f, n - 1);
          assert EndsWith(h, n, Last(h).success) ==> EndsWith(f, n - 1, Last(f).success) by {
            if EndsWith(h, n, Last(h).success) {
              forall i | 0 <= i < |f| && |f| - (n - 1) <= i ensures f[i].success == Last(f).success {
                assert f[i] == h[i];
              }
            }
          }
          assert EndsWith(f, n - 1, Last(f).success) ==> EndsWith(h, n, Last(h).success) by {
            if EndsWith(f, n - 1, Last(f).success) {
              forall i | 0 <= i < |h| && |h| - n <= i ensures h[i].success == Last(h).success {
                if i < |f| { assert h[i] == f[i]; }
              }
            }
          }
        }
      } else if n > 1 {
        assert !EndsWith(h, n, Last(h).success) by { assert |h| - n <= |h| - 2; }
      }
    }
  }

  /** Hysteresis: a probe leaves its own result on record exactly when it ends a run of its threshold; otherwise the
      record stays as it was. */
  lemma RecordFollowsThreshold(before: Option<bool>, h: seq<Probe>, p: Probe)
    ensures var n := Max(0, if p.success then p.params.successThreshold else p.params.failureThreshold);
            Cached(before, h + [p]) == if EndsWith(h + [p], n, p.success) then Some(p.success) else Cached(before, h)
  {
    var g := h + [p];
    assert Front(g) == h && Last(g) == p;
    RunLengthIsLongestEqualSuffix(g, Max(0, Threshold(p.success, p.params)));
  }

  /** The record flips only at the end of a run that is as long as the threshold. */
  lemma FlipsNeedAFullRun(before: Option<bool>, h: seq<Probe>, p: Probe)
    requires Cached(before, h + [p]) != Cached(before, h)
    ensures Cached(before, h + [p]) == Some(p.success)
    ensures EndsWith(h + [p], if p.success then p.params.successThreshold else p.params.failureThreshold, p.success)
  {
    RecordFollowsThreshold(before, h, p);
  }

  // ---- Worker and results, as objects -----------------------------------------------------------

  class ResultManager {
    var cache: map<Key, bool>
    var updates: seq<(Key, bool)>

    constructor ()
      ensures cache == map[] && updates == []
    {
      cache, updates := map[], [];
    }

    function Get(key: Key): Option<bool>
      reads this
    {
      if key in cache then Some(cache[key]) else None
    }

    method SetInternal(key: Key, result: bool) returns (updated: bool)
      modifies this`cache
      ensures cache == old(cache)[key := result]
      ensures updated <==> old(Get(key)) != Some(result)
    {
      updated := false;
      if key !in cache || cache[key] != result {
        updated := true;
      }
      cache := cache[key := result];
    }

    method Set(key: Key, result: bool)
      modifies this
      ensures cache == old(cache)[key := result]
      ensures updates == old(updates) + if old(Get(key)) == Some(result) then [] else [(key, result)]
    {
      var updated := SetInternal(key, result);
      if updated {
        updates := updates + [(key, result)];
      }
    }
  }

  class Worker {
    const key: Key
    var params: Params
    var lastResult: bool
    var resultRun: int
    var stopped: bool
    ghost var history: seq<Probe>

    /** The two counters stand for the probes so far. A new worker's last result is a failure, in a run of none. */
    ghost predicate Valid()
      reads this
    {
      resultRun == RunLength(history) && lastResult == (history != [] && Last(history).success)
    }

    constructor (key: Key, params: Params)
      ensures Valid() && this.key == key && this.params == params && history == [] && !stopped
    {
      this.key, this.params, stopped := key, params, false;
      lastResult, resultRun := false, 0;
      history := [];
    }

    method SetProbeParams(p: Params)
      modifies this`params
      ensures params == p
    {
      params := p;
    }

    method DoProbe(m: ResultManager, success: bool)
      requires Valid()
      modifies this`lastResult, this`resultRun, this`history, m
      ensures Valid() && history == old(history) + [Probe(success, params)]
      ensures m.Get(key) == if Completes(history) then Some(success) else old(m.Get(key))
      ensures forall k | k != key :: m.Get(k) == old(m.Get(k))
      ensures m.updates == old(m.updates) + if m.Get(key) == old(m.Get(key)) then [] else [(key, success)]
    {
      history := history + [Probe(success, params)];
      assert Front(history) == old(history);
      if lastResult == success {
        resultRun := resultRun + 1;
      } else {
        lastResult := success;
        resultRun := 1;
      }
      if (!success && resultRun < params.failureThreshold) || (success && resultRun < params.successThreshold) {
        return;
      }
      m.Set(key, success);
    }
  }

  /** The controller's map of workers. */
  class Registry {
    var workers: map<Key, Worker>

    constructor ()
      ensures workers == map[]
    {
      workers := map[];
    }

    /** A worker that is there gets the parameters and keeps everything else; otherwise a new one is registered. */
    method EnsureProbe(key: Key, params: Params)
      modifies this, if key in workers then {workers[key]} else {}
      ensures old(key in workers) ==>
                workers == old(workers)
                && workers[key].params == params
                && workers[key].history == old(workers[key].history)
                && workers[key].resultRun == old(workers[key].resultRun)
                && workers[key].lastResult == old(workers[key].lastResult)
                && workers[key].stopped == old(workers[key].stopped)
      ensures old(key !in workers) ==>
                key in workers && fresh(workers[key]) && workers == old(workers)[key := workers[key]]
                && workers[key].Valid()
                && workers[key].key == key
                && workers[key].params == params
                && workers[key].history == [] && !workers[key].stopped
      ensures !workers[key].stopped <==> old(key !in workers || !workers[key].stopped)
    {
      if key in workers {
        if workers[key].params != params {
          workers[key].SetProbeParams(params);
        }
        return;
      }
      var w := new Worker(key, params);
      workers := workers[key := w];
    }

    /** Tells the worker to stop; it stays registered until it has left. */
    method RemoveProbe(key: Key)
      modifies if key in workers then {workers[key]} else {}
      ensures key in workers ==>
                workers[key].stopped
                && workers[key].params == old(workers[key].params)
                && workers[key].history == old(workers[key].history)
                && workers[key].resultRun == old(workers[key].resultRun)
                && workers[key].lastResult == old(workers[key].lastResult)
    {
      if key in workers {
        workers[key].stopped := true;
      }
    }

    method RemoveWorker(key: Key)
      modifies this
      ensures workers == old(workers) - {key}
    {
      workers := workers - {key};
    }
  }

  // ---- Workers in the controller ----------------------------------------------------------------

  /** A running worker. `pending`: it is blocked sending an update; `leaving`: it has left its loop and is still
      registered, since its context ended, the probe said not to go on, or it was told to stop. */
  datatype Task = Task(
    key: Key, params: Params, history: seq<Probe>, pending: Option<bool>, stopped: bool, leaving: bool)
  {
    predicate Lives() { !stopped && !leaving }
  }

  /** `registry` is the controller's map of workers, `running` the goroutines; `sent` the updates put on the channel. */
  datatype World = World(
    registry: map<Key, nat>, running: map<nat, Task>, cache: map<Key, bool>, sent: map<Key, seq<bool>>)

  const EMPTY := World(map[], map[], map[], map[])

  datatype Step =
    | EnsureProbe(key: Key, params: Params, id: nat)   // id: a worker never used before
    | RemoveProbe(key: Key)
    | DoProbe(id: nat, success: bool)
    | Send(id: nat)
    | Leave(id: nat)
    | Exit(id: nat)

  function CacheOf(w: World, k: Key): Option<bool> { if k in w.cache then Some(w.cache[k]) else None }

  function SentTo(w: World, k: Key): seq<bool> { if k in w.sent then w.sent[k] else [] }

  function Apply(w: World, s: Step): World {
    match s
    case EnsureProbe(k, p, id) =>
      if k in w.registry then
        (if w.registry[k] in w.running
         then w.(running := w.running[w.registry[k] := w.running[w.registry[k]].(params := p)]) else w)
      else if id in w.running then w
      else w.(registry := w.registry[k := id], running := w.running[id := Task(k, p, [], None, false, false)])
    case RemoveProbe(k) =>
      if k in w.registry && w.registry[k] in w.running
      then w.(running := w.running[w.registry[k] := w.running[w.registry[k]].(stopped := true)]) else w
    case DoProbe(id, success) =>
      if id !in w.running || w.running[id].pending.Some? || w.running[id].leaving then w
      else
        var t := w.running[id];
        var h := t.history + [Probe(success, t.params)];
        if !Completes(h) then w.(running := w.running[id := t.(history := h)])
        else w.(cache := w.cache[t.key := success],
                running := w.running[id :=
                    t.(history := h, pending := if CacheOf(w, t.key) == Some(success) then None else Some(success))])
    case Send(id) =>
      if id !in w.running || w.running[id].pending.None? then w
      else
        var t := w.running[id];
        w.(sent := w.sent[t.key := SentTo(w, t.key) + [t.pending.value]],
           running := w.running[id := t.(pending := None)])
    case Leave(id) =>
      if id !in w.running || w.running[id].pending.Some? then w
      else w.(running := w.running[id := w.running[id].(leaving := true)])
    case Exit(id) =>
      if id !in w.running || w.running[id].pending.Some? || !w.running[id].leaving then w
      else w.(registry := w.registry - {w.running[id].key}, running := w.running - {id})
  }

  function Run(w: World, steps: seq<Step>): World
    decreases |steps|
  {
    if steps == [] then w else Run(Apply(w, steps[0]), steps[1..])
  }

  predicate Alternates(s: seq<bool>) { forall i | 0 <= i < |s| - 1 :: s[i] != s[i + 1] }

  /** A running worker is the one registered for its key. */
  predicate Registered(w: World) { Match(w.registry, w.running) }

  predicate Match(registry: map<Key, nat>, running: map<nat, Task>) {
    && (forall id | id in running :: running[id].key in registry && registry[running[id].key] == id)
    && (forall k | k in registry :: registry[k] in running && running[registry[k]].key == k)
  }

  /** What a key's worker still has to send. */
  function PendingFor(w: World, k: Key): seq<bool>
    requires Registered(w)
  {
    if k in w.registry && w.running[w.registry[k]].pending.Some? then [w.running[w.registry[k]].pending.value] else []
  }

  /** The updates of a key, sent and to be sent, alternate and end with the cached result. */
  predicate StreamFits(w: World, k: Key)
    requires Registered(w)
  {
    var all := SentTo(w, k) + PendingFor(w, k);
    && Alternates(all)
    && CacheOf(w, k) == if all == [] then None else Some(Last(all))
  }

  ghost predicate Inv(w: World) {
    Registered(w) && forall k: Key :: StreamFits(w, k)
  }

  /** A worker that changes keeps its key. */
  lemma ChangedTaskMatches(registry: map<Key, nat>, running: map<nat, Task>, id: nat, t: Task)
    requires Match(registry, running) && id in running && t.key == running[id].key
    ensures Match(registry, running[id := t])
  {
  }

  lemma ChangeKeepsRegistered(w: World, v: World, id: nat)
    requires Registered(w) && v.registry == w.registry
    requires v.running == w.running
             || (id in w.running && id in v.running && v.running[id].key == w.running[id].key
                 && v.running == w.running[id := v.running[id]])
    ensures Registered(v)
  {
    if v.running != w.running { ChangedTaskMatches(w.registry, w.running, id, v.running[id]); }
  }

  lemma EnsureKeepsRegistered(w: World, k: Key, p: Params, id: nat)
    requires Registered(w)
    ensures Registered(Apply(w, EnsureProbe(k, p, id)))
  {
    if k in w.registry { ChangeKeepsRegistered(w, Apply(w, EnsureProbe(k, p, id)), w.registry[k]); }
  }

  lemma StepKeepsRegistered(w: World, s: Step)
    requires Registered(w)
    ensures Registered(Apply(w, s))
  {
    match s
    case EnsureProbe(k, p, id) => EnsureKeepsRegistered(w, k, p, id);
    case RemoveProbe(k) => if k in w.registry { ChangeKeepsRegistered(w, Apply(w, s), w.registry[k]); }
    case DoProbe(id, _) => ChangeKeepsRegistered(w, Apply(w, s), id);
    case Send(id) => ChangeKeepsRegistered(w, Apply(w, s), id);
    case Leave(id) => ChangeKeepsRegistered(w, Apply(w, s), id);
    case Exit(_) =>
  }

  /** The worker whose key a step is about. */
  function KeyOf(w: World, s: Step): Option<Key> {
    match s
    case EnsureProbe(k, _, _) => Some(k)
    case RemoveProbe(k) => Some(k)
    case DoProbe(id, _) => if id in w.running then Some(w.running[id].key) else None
    case Send(id) => if id in w.running then Some(w.running[id].key) else None
    case Leave(id) => if id in w.running then Some(w.running[id].key) else None
    case Exit(id) => if id in w.running then Some(w.running[id].key) else None
  }

  /** A change of one worker is no change to another key. */
  lemma OneWorkerChanges(w: World, v: World, id: nat, k: Key)
    requires Registered(w) && Registered(v) && id in w.running && w.running[id].key != k
    requires v.registry == w.registry || v.registry == w.registry - {w.running[id].key}
    requires forall i | i in w.running && i != id :: i in v.running && v.running[i] == w.running[i]
    ensures PendingFor(v, k) == PendingFor(w, k)
  {
    if k in w.registry { assert w.registry[k] != id; }
  }

  lemma OtherStreamsAreLeftAlone(w: World, s: Step, k: Key)
    requires KeyOf(w, s) != Some(k)
    ensures SentTo(Apply(w, s), k) == SentTo(w, k) && CacheOf(Apply(w, s), k) == CacheOf(w, k)
  {
  }

  lemma WorkerStepLeavesOtherKeys(w: World, s: Step, k: Key)
    requires Registered(w) && KeyOf(w, s) != Some(k) && (s.DoProbe? || s.Send? || s.Leave? || s.Exit?)
    requires Registered(Apply(w, s))
    ensures PendingFor(Apply(w, s), k) == PendingFor(w, k)
  {
    if s.id in w.running { OneWorkerChanges(w, Apply(w, s), s.id, k); }
  }

  lemma OtherKeysAreLeftAlone(w: World, s: Step, k: Key)
    requires Registered(w) && KeyOf(w, s) != Some(k)
    ensures Registered(Apply(w, s))
    ensures SentTo(Apply(w, s), k) == SentTo(w, k) && PendingFor(Apply(w, s), k) == PendingFor(w, k)
    ensures CacheOf(Apply(w, s), k) == CacheOf(w, k)
  {
    StepKeepsRegistered(w, s);
    OtherStreamsAreLeftAlone(w, s, k);
    if s.DoProbe? || s.Send? || s.Leave? || s.Exit? { WorkerStepLeavesOtherKeys(w, s, k); }
  }

  /** A stream that fits still fits after a new result is cached and, if it differs, lined up for sending. */
  lemma StreamGrows(all: seq<bool>, before: Option<bool>, success: bool)
    requires Alternates(all) && before == if all == [] then None else Some(Last(all))
    ensures before != Some(success) ==> Alternates(all + [success]) && Last(all + [success]) == success
  {
    var more := all + [success];
    if before != Some(success) {
      forall i | 0 <= i < |more| - 1 ensures more[i] != more[i + 1] {
        if i < |all| - 1 { assert all[i] != all[i + 1]; }
      }
    }
  }

  lemma ProbeFits(w: World, id: nat, success: bool, k: Key)
    requires Registered(w) && StreamFits(w, k) && id in w.running && w.running[id].key == k
    ensures Registered(Apply(w, DoProbe(id, success))) && StreamFits(Apply(w, DoProbe(id, success)), k)
  {
    var v := Apply(w, DoProbe(id, success));
    StepKeepsRegistered(w, DoProbe(id, success));
    assert w.registry[k] == id && SentTo(v, k) == SentTo(w, k);
    if w.running[id].pending.None? {
      assert SentTo(w, k) + PendingFor(w, k) == SentTo(w, k);
      StreamGrows(SentTo(w, k), CacheOf(w, k), success);
      assert PendingFor(v, k) == [] ==> SentTo(v, k) + PendingFor(v, k) == SentTo(w, k);
    }
  }

  lemma SendFits(w: World, id: nat, k: Key)
    requires Registered(w) && StreamFits(w, k) && id in w.running && w.running[id].key == k
    ensures Registered(Apply(w, Send(id))) && StreamFits(Apply(w, Send(id)), k)
  {
    var v := Apply(w, Send(id));
    StepKeepsRegistered(w, Send(id));
    assert w.registry[k] == id;
    if w.running[id].pending.Some? {
      assert PendingFor(v, k) == [] && SentTo(v, k) == SentTo(w, k) + PendingFor(w, k);
      assert SentTo(v, k) + PendingFor(v, k) == SentTo(w, k) + PendingFor(w, k);
    }
  }

  lemma RegistryStepFits(w: World, s: Step, k: Key)
    requires Registered(w) && StreamFits(w, k) && KeyOf(w, s) == Some(k) && !s.DoProbe? && !s.Send?
    ensures Registered(Apply(w, s)) && StreamFits(Apply(w, s), k)
  {
    var v := Apply(w, s);
    StepKeepsRegistered(w, s);
    assert PendingFor(v, k) == PendingFor(w, k) && SentTo(v, k) == SentTo(w, k);
  }

  lemma OwnKeyFits(w: World, s: Step, k: Key)
    requires Registered(w) && StreamFits(w, k) && KeyOf(w, s) == Some(k)
    ensures Registered(Apply(w, s)) && StreamFits(Apply(w, s), k)
  {
    match s
    case DoProbe(id, success) => ProbeFits(w, id, success, k);
    case Send(id) => SendFits(w, id, k);
    case _ => RegistryStepFits(w, s, k);
  }

  lemma StepKeepsInv(w: World, s: Step)
    requires Inv(w)
    ensures Inv(Apply(w, s))
  {
    StepKeepsRegistered(w, s);
    forall k: Key ensures StreamFits(Apply(w, s), k) {
      assert StreamFits(w, k);
      if KeyOf(w, s) == Some(k) {
        OwnKeyFits(w, s, k);
      } else {
        OtherKeysAreLeftAlone(w, s, k);
      }
    }
  }

  lemma {:induction false} RunKeepsInv(w: World, steps: seq<Step>)
    requires Inv(w)
    ensures Inv(Run(w, steps))
    decreases |steps|
  {
    if steps != [] {
      StepKeepsInv(w, steps[0]);
      RunKeepsInv(Apply(w, steps[0]), steps[1..]);
    }
  }

  /** In every interleaving of probes, sends, parameter changes and workers that come and go: a key has at most one
      running worker, its updates strictly alternate, and once no send is pending the last update sent is the cached
      result. */
  lemma UpdatesAlternate(steps: seq<Step>, k: Key)
    ensures var w := Run(EMPTY, steps);
            && (forall i, j {:trigger w.running[i], w.running[j]} |
                  i in w.running && j in w.running && w.running[i].key == k && w.running[j].key == k :: i == j)
            && Alternates(SentTo(w, k))
            && ((forall id | id in w.running && w.running[id].key == k :: w.running[id].pending.None?) ==>
                  CacheOf(w, k) == if SentTo(w, k) == [] then None else Some(Last(SentTo(w, k))))
  {
    assert Inv(EMPTY) by {
      forall k: Key ensures StreamFits(EMPTY, k) {}
    }
    RunKeepsInv(EMPTY, steps);
    var w := Run(EMPTY, steps);
    assert StreamFits(w, k);
    var all := SentTo(w, k) + PendingFor(w, k);
    forall i | 0 <= i < |SentTo(w, k)| - 1 ensures SentTo(w, k)[i] != SentTo(w, k)[i + 1] {
      assert all[i] != all[i + 1];
    }
  }

  /** A probe and its send in a row do what the worker's method does. */
  lemma ProbeAndSendIsTheMethod(w: World, id: nat, success: bool)
    requires id in w.running && w.running[id].pending.None? && !w.running[id].leaving
    ensures var v, t := Apply(Apply(w, DoProbe(id, success)), Send(id)), w.running[id];
            var h := t.history + [Probe(success, t.params)];
            && v.registry == w.registry && v.running == w.running[id := t.(history := h)]
            && CacheOf(v, t.key) == (if Completes(h) then Some(success) else CacheOf(w, t.key))
            && SentTo(v, t.key) == SentTo(w, t.key) + (if CacheOf(v, t.key) == CacheOf(w, t.key) then [] else [success])
  {
    var u := Apply(w, DoProbe(id, success));
    assert SentTo(u, w.running[id].key) == SentTo(w, w.running[id].key);
  }

  /** Asking for a probe leaves it with a worker that goes on probing exactly when no worker was registered, or the
      registered one had neither been told to stop nor left its loop. */
  lemma EnsureWorksExactly(w: World, k: Key, p: Params, id: nat)
    requires Registered(w) && id !in w.running
    ensures var v := Apply(w, EnsureProbe(k, p, id));
            (exists i :: i in v.running && v.running[i].key == k && v.running[i].Lives()) <==>
            (k !in w.registry || w.running[w.registry[k]].Lives())
  {
    var v := Apply(w, EnsureProbe(k, p, id));
    StepKeepsRegistered(w, EnsureProbe(k, p, id));
    assert k in v.registry && v.registry[k] in v.running && v.running[v.registry[k]].key == k;
    assert forall i | i in v.running && v.running[i].key == k :: i == v.registry[k];
  }

  /** What asking for a probe and giving it up do to a worker that is there: the first sets its parameters, the second
      tells it to stop; its probes, its pending update, and every other worker stay as they are. */
  lemma WorkerIsTold(w: World, k: Key, p: Params, id: nat)
    requires Registered(w) && k in w.registry
    ensures var asked, given := Apply(w, EnsureProbe(k, p, id)), Apply(w, RemoveProbe(k));
            var i := w.registry[k];
            && asked == w.(running := asked.running) && given == w.(running := given.running)
            && asked.running == w.running[i := w.running[i].(params := p)]
            && given.running == w.running[i := w.running[i].(stopped := true)]
  {
  }

  /** So giving a probe up and asking for it again before its worker has left loses it. */
  lemma AskingAgainTooSoonIsLost(w: World, k: Key, p: Params, id: nat)
    requires Registered(w) && k in w.registry && w.running[w.registry[k]].pending.None?
    ensures var v := Run(w, [RemoveProbe(k)] + [EnsureProbe(k, p, id), Leave(w.registry[k]), Exit(w.registry[k])]);
            k !in v.registry && forall i | i in v.running :: v.running[i].key != k
  {
    WorkerIsTold(w, k, p, id);
    StepKeepsRegistered(w, RemoveProbe(k));
    EnsureDuringStopIsLost(Apply(w, RemoveProbe(k)), k, p, id);
    var rest := [EnsureProbe(k, p, id), Leave(w.registry[k]), Exit(w.registry[k])];
    assert ([RemoveProbe(k)] + rest)[1..] == rest;
  }

  /** A probe that is asked for again while its worker is stopped or leaving gets no worker of its own: once the old one
      is gone, nobody probes the key. */
  lemma EnsureDuringStopIsLost(w: World, k: Key, p: Params, id: nat)
    requires Registered(w) && k in w.registry
    requires !w.running[w.registry[k]].Lives() && w.running[w.registry[k]].pending.None?
    ensures var v := Run(w, [EnsureProbe(k, p, id), Leave(w.registry[k]), Exit(w.registry[k])]);
            k !in v.registry && forall i | i in v.running :: v.running[i].key != k
  {
    var leaver := w.registry[k];
    var w1 := Apply(w, EnsureProbe(k, p, id));
    var w2 := Apply(w1, Leave(leaver));
    RunOfThree(w, EnsureProbe(k, p, id), Leave(leaver), Exit(leaver));
    StepKeepsRegistered(w, EnsureProbe(k, p, id));
    StepKeepsRegistered(w1, Leave(leaver));
  }

  lemma RunOfThree(w: World, p: Step, q: Step, r: Step)
    ensures Run(w, [p, q, r]) == Apply(Apply(Apply(w, p), q), r)
  {
    assert [p, q, r][1..] == [q, r] && [q, r][1..] == [r] && [r][1..] == [];
    var w1, w2 := Apply(w, p), Apply(Apply(w, p), q);
    var w3 := Apply(w2, r);
    assert Run(w3, []) == w3 && Run(w2, [r]) == w3 && Run(w1, [q, r]) == w3;
  }
}

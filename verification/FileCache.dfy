/**
 The download cache (cluster-api-provider-kubeforce/pkg/repository/storage.go): getFile under a mutex a key, its
 temporary file and the rename that commits it; remove, which takes no lock; and a crash of the process.

 A path names a file (an inode number); `complete` holds the files whose download ended well. A key is the cleaned
 relative path of its final file.
 */
module FileCache {
  import opened Common

  type Path = string
  type Key = string
  type Inode = nat

  function Tmp(k: Key): Path { k + ".tmp" }

  /** Where a call of getFile is. Its result is the file it returns, or None for an error. */
  datatype Stage =
    | Waiting
    | Locked
    | Missing                         // no final file
    | Clear                           // no temporary file either
    | Downloading(file: Inode)
    | Downloaded(file: Inode)
    | Cleaning(result: Option<Inode>) // about to remove the temporary file
    | Leaving(result: Option<Inode>)  // about to unlock
    | Returned(result: Option<Inode>)

  datatype Call = Call(key: Key, stage: Stage)

  datatype World = World(
    files: map<Path, Inode>, complete: set<Inode>, next: Inode, calls: map<nat, Call>, locks: map<Key, nat>)

  const EMPTY := World(map[], {}, 0, map[], map[])

  datatype Step =
    | Begin(id: nat, key: Key)
    | Advance(id: nat, ok: bool)   // ok: the file operation or the download of this stage succeeds
    | Remove(path: Path)           // one of the paths that remove deletes
    | Crash

  datatype Disk = Disk(files: map<Path, Inode>, complete: set<Inode>, next: Inode)

  predicate Holding(s: Stage) { !s.Waiting? && !s.Returned? }

  /** What an operation of a call that holds its lock does to the disk, and where the call goes. */
  function Operate(d: Disk, k: Key, stage: Stage, ok: bool): (r: (Disk, Stage))
    requires Holding(stage)
  {
    var t := Tmp(k);
    match stage
    case Locked => (d, if !ok then Leaving(None) else if k in d.files then Leaving(Some(d.files[k])) else Missing)
    case Missing => (d, if !ok || t in d.files then Leaving(None) else Clear)
    case Clear =>
      if !ok then (d, Leaving(None))
      else if t in d.files then (d.(complete := d.complete - {d.files[t]}), Downloading(d.files[t]))
      else (d.(files := d.files[t := d.next], next := d.next + 1), Downloading(d.next))
    case Downloading(f) => if ok then (d.(complete := d.complete + {f}), Downloaded(f)) else (d, Cleaning(None))
    case Downloaded(f) =>
      if ok && t in d.files then (d.(files := (d.files - {t})[k := d.files[t]]), Cleaning(Some(d.files[t])))
      else (d, Cleaning(None))
    case Cleaning(r) => (if ok then d.(files := d.files - {t}) else d, Leaving(r))
    case Leaving(r) => (d, Returned(r))
  }

  function AdvanceCall(w: World, id: nat, ok: bool): World
    requires id in w.calls
  {
    var k, stage := w.calls[id].key, w.calls[id].stage;
    if stage.Returned? || (stage.Waiting? && k in w.locks) then w
    else if stage.Waiting? then w.(calls := w.calls[id := Call(k, Locked)], locks := w.locks[k := id])
    else
      var (d, s) := Operate(Disk(w.files, w.complete, w.next), k, stage, ok);
      World(d.files, d.complete, d.next, w.calls[id := Call(k, s)], if stage.Leaving? then w.locks - {k} else w.locks)
  }

  function Apply(w: World, s: Step): World {
    match s
    case Begin(id, k) => if id in w.calls then w else w.(calls := w.calls[id := Call(k, Waiting)])
    case Advance(id, ok) => if id in w.calls then AdvanceCall(w, id, ok) else w
    case Remove(p) => w.(files := w.files - {p})
    case Crash => w.(calls := map[], locks := map[])
  }

  function Run(w: World, steps: seq<Step>): World
    decreases |steps|
  {
    if steps == [] then w else Run(Apply(w, steps[0]), steps[1..])
  }

  /** The steps are about these keys. */
  predicate Over(keys: set<Key>, steps: seq<Step>) { forall s | s in steps && s.Begin? :: s.key in keys }

  predicate Collides(k: Key, l: Key) { l == Tmp(k) }

  predicate NoCollision(keys: set<Key>) { forall k, l | k in keys && l in keys :: !Collides(k, l) }

  // ---- The invariant ----------------------------------------------------------------------------

  predicate LocksFit(w: World, keys: set<Key>) {
    && (forall i | i in w.calls :: w.calls[i].key in keys)
    && (forall i | i in w.calls && Holding(w.calls[i].stage) ::
          w.calls[i].key in w.locks && w.locks[w.calls[i].key] == i)
    && (forall k | k in w.locks ::
          w.locks[k] in w.calls && w.calls[w.locks[k]].key == k && Holding(w.calls[w.locks[k]].stage))
  }

  predicate FinalsComplete(w: World, keys: set<Key>) {
    forall k | k in keys && k in w.files :: w.files[k] in w.complete
  }

  /** What a call at this stage relies on. */
  predicate StageFits(w: World, k: Key, s: Stage) {
    match s
    case Clear => Tmp(k) !in w.files
    case Downloading(f) => f !in w.complete && f < w.next && (Tmp(k) in w.files ==> w.files[Tmp(k)] == f)
    case Downloaded(f) => f in w.complete && (Tmp(k) in w.files ==> w.files[Tmp(k)] == f)
    case Cleaning(r) => r.Some? ==> r.value in w.complete
    case Leaving(r) => r.Some? ==> r.value in w.complete
    case Returned(r) => r.Some? ==> r.value in w.complete
    case _ => true
  }

  predicate CallsFit(w: World) { forall i | i in w.calls :: StageFits(w, w.calls[i].key, w.calls[i].stage) }

  /** File numbers are fresh, and no two calls download into one file. */
  predicate Numbered(w: World) {
    && (forall f | f in w.complete :: f < w.next)
    && (forall i, j {:trigger w.calls[i], w.calls[j]} | i in w.calls && j in w.calls && i != j
          && w.calls[i].stage.Downloading? && w.calls[j].stage.Downloading? ::
          w.calls[i].stage.file != w.calls[j].stage.file)
  }

  predicate Inv(w: World, keys: set<Key>) {
    LocksFit(w, keys) && FinalsComplete(w, keys) && CallsFit(w) && Numbered(w)
  }

  /** The lock a step takes or frees is its own key's; its call holds it exactly between the two. */
  lemma AdvanceMovesOneCall(w: World, id: nat, ok: bool)
    requires id in w.calls
    ensures var v, c := AdvanceCall(w, id, ok), w.calls[id];
            && v.calls.Keys == w.calls.Keys && v.calls[id].key == c.key
            && (forall i | i in w.calls && i != id :: v.calls[i] == w.calls[i])
            && (if c.stage.Waiting? && c.key !in w.locks then
                  v.locks == w.locks[c.key := id] && v.calls[id].stage.Locked?
                else if c.stage.Leaving? then v.locks == w.locks - {c.key} && v.calls[id].stage.Returned?
                else v.locks == w.locks && Holding(v.calls[id].stage) == Holding(c.stage))
  {
  }

  lemma MoveKeepsLocks(w: World, v: World, id: nat, keys: set<Key>)
    requires id in w.calls && LocksFit(w, keys)
    requires v.calls.Keys == w.calls.Keys && v.calls[id].key == w.calls[id].key
    requires forall i | i in w.calls && i != id :: v.calls[i] == w.calls[i]
    requires var c := w.calls[id];
             if c.stage.Waiting? && c.key !in w.locks then v.locks == w.locks[c.key := id] && v.calls[id].stage.Locked?
             else if c.stage.Leaving? then v.locks == w.locks - {c.key} && v.calls[id].stage.Returned?
             else v.locks == w.locks && Holding(v.calls[id].stage) == Holding(c.stage)
    ensures LocksFit(v, keys)
  {
    forall i | i in v.calls ensures v.calls[i].key in keys {
      assert w.calls[i].key in keys;
    }
  }

  lemma AdvanceKeepsLocks(w: World, id: nat, ok: bool, keys: set<Key>)
    requires id in w.calls && LocksFit(w, keys)
    ensures LocksFit(AdvanceCall(w, id, ok), keys)
  {
    AdvanceMovesOneCall(w, id, ok);
    MoveKeepsLocks(w, AdvanceCall(w, id, ok), id, keys);
  }

  lemma TmpIsInjective(k: Key, l: Key)
    requires Tmp(k) == Tmp(l)
    ensures k == l
  {
    assert k == Tmp(k)[..|Tmp(k)| - 4] && l == Tmp(l)[..|Tmp(l)| - 4];
  }

  lemma AdvanceKeepsNumbers(w: World, id: nat, ok: bool, keys: set<Key>)
    requires id in w.calls && Inv(w, keys)
    ensures Numbered(AdvanceCall(w, id, ok))
  {
  }

  lemma AdvanceKeepsFinals(w: World, id: nat, ok: bool, keys: set<Key>)
    requires id in w.calls && Inv(w, keys) && NoCollision(keys)
    ensures FinalsComplete(AdvanceCall(w, id, ok), keys)
  {
    var k := w.calls[id].key;
    assert forall l | l in keys :: !Collides(k, l);
  }

  /** A call that holds another key's lock does not touch what a call relies on. */
  lemma OthersFit(w: World, id: nat, ok: bool, keys: set<Key>, i: nat)
    requires id in w.calls && i in w.calls && i != id && Inv(w, keys) && NoCollision(keys)
    ensures StageFits(AdvanceCall(w, id, ok), w.calls[i].key, w.calls[i].stage)
  {
    var k, l := w.calls[id].key, w.calls[i].key;
    assert !Collides(l, k);
    assert StageFits(w, l, w.calls[i].stage) && StageFits(w, k, w.calls[id].stage);
    if k != l && Tmp(k) == Tmp(l) {
      TmpIsInjective(k, l);
    }
  }

  lemma OwnStageFits(w: World, id: nat, ok: bool, keys: set<Key>)
    requires id in w.calls && Inv(w, keys) && NoCollision(keys)
    ensures var v := AdvanceCall(w, id, ok); StageFits(v, v.calls[id].key, v.calls[id].stage)
  {
    assert StageFits(w, w.calls[id].key, w.calls[id].stage);
  }

  lemma AdvanceKeepsInv(w: World, id: nat, ok: bool, keys: set<Key>)
    requires id in w.calls && Inv(w, keys) && NoCollision(keys)
    ensures Inv(AdvanceCall(w, id, ok), keys)
  {
    var v := AdvanceCall(w, id, ok);
    AdvanceKeepsLocks(w, id, ok, keys);
    AdvanceKeepsNumbers(w, id, ok, keys);
    AdvanceKeepsFinals(w, id, ok, keys);
    AdvanceMovesOneCall(w, id, ok);
    assert CallsFit(v) by {
      forall i | i in v.calls ensures StageFits(v, v.calls[i].key, v.calls[i].stage) {
        if i == id {
          OwnStageFits(w, id, ok, keys);
        } else {
          OthersFit(w, id, ok, keys, i);
        }
      }
    }
  }

  lemma BeginKeepsInv(w: World, id: nat, key: Key, keys: set<Key>)
    requires Inv(w, keys) && key in keys
    ensures Inv(Apply(w, Begin(id, key)), keys)
  {
  }

  lemma RemoveKeepsInv(w: World, p: Path, keys: set<Key>)
    requires Inv(w, keys)
    ensures Inv(Apply(w, Remove(p)), keys)
  {
    var v := Apply(w, Remove(p));
    forall i | i in v.calls ensures StageFits(v, v.calls[i].key, v.calls[i].stage) {
      assert StageFits(w, w.calls[i].key, w.calls[i].stage);
    }
  }

  lemma StepKeepsInv(w: World, s: Step, keys: set<Key>)
    requires Inv(w, keys) && NoCollision(keys) && (s.Begin? ==> s.key in keys)
    ensures Inv(Apply(w, s), keys)
  {
    match s
    case Begin(id, k) => BeginKeepsInv(w, id, k, keys);
    case Advance(id, ok) => if id in w.calls { AdvanceKeepsInv(w, id, ok, keys); }
    case Remove(p) => RemoveKeepsInv(w, p, keys);
    case Crash =>
  }

  lemma {:induction false} RunKeepsInv(w: World, steps: seq<Step>, keys: set<Key>)
    requires Inv(w, keys) && NoCollision(keys) && Over(keys, steps)
    ensures Inv(Run(w, steps), keys)
    decreases |steps|
  {
    if steps != [] {
      StepKeepsInv(w, steps[0], keys);
      RunKeepsInv(Apply(w, steps[0]), steps[1..], keys);
    }
  }

  // ---- Safety -----------------------------------------------------------------------------------

  /** In every interleaving of calls, removals and crashes: what a call returns is a complete download. */
  lemma ReturnedFilesAreComplete(steps: seq<Step>, keys: set<Key>, i: nat)
    requires NoCollision(keys) && Over(keys, steps) && i in Run(EMPTY, steps).calls
    ensures var w := Run(EMPTY, steps);
            w.calls[i].stage.Returned? && w.calls[i].stage.result.Some? ==> w.calls[i].stage.result.value in w.complete
  {
    RunKeepsInv(EMPTY, steps, keys);
    var w := Run(EMPTY, steps);
    assert StageFits(w, w.calls[i].key, w.calls[i].stage);
  }

  /** A key has at most one call between its lock and its unlock, so at most one download in flight. */
  lemma OneDownloadPerKey(steps: seq<Step>, keys: set<Key>, i: nat, j: nat)
    requires NoCollision(keys) && Over(keys, steps)
    requires var w := Run(EMPTY, steps);
             && i in w.calls && j in w.calls && w.calls[i].key == w.calls[j].key
             && Holding(w.calls[i].stage) && Holding(w.calls[j].stage)
    ensures i == j
  {
    RunKeepsInv(EMPTY, steps, keys);
  }

  predicate AlwaysComplete(keys: set<Key>, steps: seq<Step>) { FinalsComplete(Run(EMPTY, steps), keys) }

  /** The run in which a call for key k is downloading. */
  function DownloadingRun(k: Key): seq<Step> {
    [Begin(0, k), Advance(0, true), Advance(0, true), Advance(0, true), Advance(0, true)]
  }

  lemma DownloadingRunEnds(k: Key)
    ensures Run(EMPTY, DownloadingRun(k)) ==
            World(map[Tmp(k) := 0], {}, 1, map[0 := Call(k, Downloading(0))], map[k := 0])
  {
    var s := DownloadingRun(k);
    var a := Apply(EMPTY, s[0]);
    var b := Apply(a, s[1]);
    var c := Apply(b, s[2]);
    var d := Apply(c, s[3]);
    var e := Apply(d, s[4]);
    assert s[1..][1..] == s[2..] && s[2..][1..] == s[3..] && s[3..][1..] == s[4..] && s[4..][1..] == [];
    assert Run(d, s[4..]) == e && Run(c, s[3..]) == e && Run(b, s[2..]) == e && Run(a, s[1..]) == e;
  }

  /** A final path only ever holds a complete download, in every run over these keys, exactly when no key is another
      one's temporary file. */
  lemma CommitIsSafeExactlyWithoutCollision(keys: set<Key>)
    ensures (forall steps | Over(keys, steps) :: AlwaysComplete(keys, steps)) <==> NoCollision(keys)
  {
    if NoCollision(keys) {
      forall steps | Over(keys, steps) ensures AlwaysComplete(keys, steps) {
        RunKeepsInv(EMPTY, steps, keys);
      }
    } else {
      var k, l :| k in keys && l in keys && Collides(k, l);
      DownloadingRunEnds(k);
      assert Over(keys, DownloadingRun(k)) && l in Run(EMPTY, DownloadingRun(k)).files;
      assert !AlwaysComplete(keys, DownloadingRun(k));
    }
  }

  // ---- Temporary files --------------------------------------------------------------------------

  /** Steps of a run without a crash, in which temporary files can be removed. */
  predicate Orderly(w: World, s: Step) {
    !s.Crash? && (s.Advance? && s.id in w.calls && w.calls[s.id].stage.Cleaning? ==> s.ok)
  }

  predicate OrderlyRun(w: World, steps: seq<Step>)
    decreases |steps|
  {
    steps == [] || (Orderly(w, steps[0]) && OrderlyRun(Apply(w, steps[0]), steps[1..]))
  }

  predicate Uses(s: Stage) { s.Downloading? || s.Downloaded? || s.Cleaning? }

  predicate NoLeftover(w: World, k: Key) {
    Tmp(k) in w.files ==> k in w.locks && w.locks[k] in w.calls && Uses(w.calls[w.locks[k]].stage)
  }

  lemma StepLeavesNothing(w: World, s: Step, keys: set<Key>, k: Key)
    requires Inv(w, keys) && NoCollision(keys) && Orderly(w, s) && k in keys && NoLeftover(w, k)
    ensures NoLeftover(Apply(w, s), k)
  {
    if s.Advance? && s.id in w.calls {
      var l := w.calls[s.id].key;
      assert !Collides(k, l);
      if Tmp(k) == Tmp(l) {
        TmpIsInjective(k, l);
      }
    }
  }

  lemma {:induction false} RunLeavesNothing(w: World, steps: seq<Step>, keys: set<Key>, k: Key)
    requires Inv(w, keys) && NoCollision(keys) && Over(keys, steps)
             && OrderlyRun(w, steps) && k in keys && NoLeftover(w, k)
    ensures NoLeftover(Run(w, steps), k)
    decreases |steps|
  {
    if steps != [] {
      StepKeepsInv(w, steps[0], keys);
      StepLeavesNothing(w, steps[0], keys, k);
      RunLeavesNothing(Apply(w, steps[0]), steps[1..], keys, k);
    }
  }

  /** Without a crash, a key whose lock is free has no temporary file. */
  lemma NoTemporaryFileWhileUnlocked(steps: seq<Step>, keys: set<Key>, k: Key)
    requires NoCollision(keys) && Over(keys, steps) && OrderlyRun(EMPTY, steps) && k in keys
    ensures var w := Run(EMPTY, steps); k !in w.locks ==> Tmp(k) !in w.files
  {
    RunLeavesNothing(EMPTY, steps, keys, k);
  }

  // ---- After a crash ----------------------------------------------------------------------------

  /** The call returns a file. */
  predicate Serves(w: World, id: nat, k: Key) {
    id in w.calls && w.calls[id].key == k && w.calls[id].stage.Returned? && w.calls[id].stage.result.Some?
  }

  predicate GetsNothing(s: Stage) {
    s.Waiting? || s.Locked? || s.Missing? || s == Leaving(None) || s.Returned?
  }

  predicate Blocked(w: World, k: Key) {
    Tmp(k) in w.files && k !in w.files
    && forall i | i in w.calls && w.calls[i].key == k :: GetsNothing(w.calls[i].stage)
  }

  lemma StepKeepsBlocked(w: World, s: Step, keys: set<Key>, k: Key)
    requires Inv(w, keys) && NoCollision(keys) && k in keys && Blocked(w, k) && s != Remove(Tmp(k))
    ensures Blocked(Apply(w, s), k)
    ensures forall i | Serves(Apply(w, s), i, k) :: Serves(w, i, k)
  {
    if s.Advance? && s.id in w.calls {
      var l := w.calls[s.id].key;
      assert !Collides(k, l) && !Collides(l, k);
      if Tmp(k) == Tmp(l) {
        TmpIsInjective(k, l);
      }
    }
  }

  /** A temporary file that a crash left behind makes every later call for its key fail, and the final file stays
      missing, until somebody removes the temporary file. */
  lemma {:induction false} LeftoverBlocksTheKey(w: World, steps: seq<Step>, keys: set<Key>, k: Key)
    requires Inv(w, keys) && NoCollision(keys) && Over(keys, steps) && k in keys
             && Blocked(w, k) && Remove(Tmp(k)) !in steps
    ensures Blocked(Run(w, steps), k)
    ensures forall i | Serves(Run(w, steps), i, k) :: Serves(w, i, k)
    decreases |steps|
  {
    if steps != [] {
      StepKeepsInv(w, steps[0], keys);
      StepKeepsBlocked(w, steps[0], keys, k);
      LeftoverBlocksTheKey(Apply(w, steps[0]), steps[1..], keys, k);
    }
  }

  /** The world w with one more call under way. */
  function InProgress(w: World, d: Disk, id: nat, k: Key, stage: Stage): World {
    World(d.files, d.complete, d.next, w.calls[id := Call(k, stage)],
          if Holding(stage) then w.locks[k := id] else w.locks)
  }

  lemma LockInProgress(w: World, d: Disk, id: nat, k: Key)
    requires k !in w.locks
    ensures Apply(InProgress(w, d, id, k, Waiting), Advance(id, true)) == InProgress(w, d, id, k, Locked)
  {
  }

  lemma OperateInProgress(w: World, d: Disk, id: nat, k: Key, stage: Stage, ok: bool)
    requires k !in w.locks && Holding(stage)
    ensures Holding(Operate(d, k, stage, ok).1) <==> !stage.Leaving?
    ensures Apply(InProgress(w, d, id, k, stage), Advance(id, ok))
         == InProgress(w, Operate(d, k, stage, ok).0, id, k, Operate(d, k, stage, ok).1)
  {
    var s := Operate(d, k, stage, ok).1;
    assert w.locks[k := id] - {k} == w.locks;
    assert w.calls[id := Call(k, stage)][id := Call(k, s)] == w.calls[id := Call(k, s)];
  }

  /** A call for key k, all of whose operations succeed. */
  function ServingRun(id: nat, k: Key): seq<Step> { [Begin(id, k)] + Advances(id, 8) }

  function Advances(id: nat, n: nat): seq<Step> {
    if n == 0 then [] else [Advance(id, true)] + Advances(id, n - 1)
  }

  /** How many operations a call still needs. */
  function ToGo(s: Stage): nat {
    match s
    case Waiting => 8
    case Locked => 7
    case Missing => 6
    case Clear => 5
    case Downloading(_) => 4
    case Downloaded(_) => 3
    case Cleaning(_) => 2
    case Leaving(_) => 1
    case Returned(_) => 0
  }

  /** What an undisturbed call on its way finds at each stage. */
  predicate OnItsWay(d: Disk, k: Key, s: Stage) {
    match s
    case Waiting | Locked | Missing | Clear => k !in d.files && Tmp(k) !in d.files
    case Downloading(f) => Tmp(k) in d.files
    case Downloaded(f) => Tmp(k) in d.files
    case Cleaning(r) => r.Some?
    case Leaving(r) => r.Some?
    case Returned(r) => r.Some?
  }

  lemma {:induction false} UndisturbedCallServes(w: World, d: Disk, id: nat, k: Key, s: Stage)
    requires k !in w.locks && OnItsWay(d, k, s)
    ensures Serves(Run(InProgress(w, d, id, k, s), Advances(id, ToGo(s))), id, k)
    decreases ToGo(s)
  {
    if !s.Returned? {
      var steps := Advances(id, ToGo(s));
      assert steps[1..] == Advances(id, ToGo(s) - 1);
      if s.Waiting? {
        LockInProgress(w, d, id, k);
        UndisturbedCallServes(w, d, id, k, Locked);
      } else {
        OperateInProgress(w, d, id, k, s, true);
        UndisturbedCallServes(w, Operate(d, k, s, true).0, id, k, Operate(d, k, s, true).1);
      }
    }
  }

  /** A key that nobody works on, and that has no final file: some call for it can return a file, without anybody
      removing the temporary file, exactly when there is none. */
  lemma KeyIsServableExactly(w: World, keys: set<Key>, k: Key, id: nat)
    requires Inv(w, keys) && NoCollision(keys) && k in keys && k !in w.files && id !in w.calls
    requires forall i | i in w.calls && w.calls[i].key == k :: w.calls[i].stage.Waiting? || w.calls[i].stage.Returned?
    ensures (exists steps :: Over(keys, steps) && Remove(Tmp(k)) !in steps && Serves(Run(w, steps), id, k)) <==>
            Tmp(k) !in w.files
  {
    if Tmp(k) in w.files {
      forall steps | Over(keys, steps) && Remove(Tmp(k)) !in steps ensures !Serves(Run(w, steps), id, k) {
        LeftoverBlocksTheKey(w, steps, keys, k);
      }
    } else {
      var d, steps := Disk(w.files, w.complete, w.next), ServingRun(id, k);
      AdvancesOnly(id, 8);
      assert steps[1..] == Advances(id, 8);
      assert Apply(w, Begin(id, k)) == InProgress(w, d, id, k, Waiting);
      UndisturbedCallServes(w, d, id, k, Waiting);
      assert Over(keys, steps) && Remove(Tmp(k)) !in steps && Serves(Run(w, steps), id, k);
    }
  }

  lemma {:induction false} AdvancesOnly(id: nat, n: nat)
    ensures forall s | s in Advances(id, n) :: s.Advance?
  {
    if n > 0 {
      AdvancesOnly(id, n - 1);
    }
  }

  lemma CrashCanBlock(k: Key)
    ensures Blocked(Run(EMPTY, DownloadingRun(k) + [Crash]), k)
  {
    DownloadingRunEnds(k);
    RunSnoc(EMPTY, DownloadingRun(k), Crash);
  }

  lemma {:induction false} RunSnoc(w: World, steps: seq<Step>, s: Step)
    ensures Run(w, steps + [s]) == Apply(Run(w, steps), s)
    decreases |steps|
  {
    if steps == [] {
      assert [] + [s] == [s] && [s][1..] == [];
      assert Run(Apply(w, s), []) == Apply(w, s);
    } else {
      assert (steps + [s])[1..] == steps[1..] + [s] && (steps + [s])[0] == steps[0];
      RunSnoc(Apply(w, steps[0]), steps[1..], s);
    }
  }
}

/** The download cache as an object: Storage.getFile and Storage.remove
    (cluster-api-provider-kubeforce/pkg/repository/storage.go). */
module FileCacheStorage {
  import opened Common
  import opened FileCache

  /** Which operations of a call succeed, and which paths somebody else removes while the download is under way. */
  datatype Environment = Environment(
    statFinal: bool, statTmp: bool, open: bool, download: bool, gone: seq<Path>, rename: bool, cleanUp: bool)
  {
    /** Every operation of a download succeeds, and its temporary file is left alone. */
    predicate Delivers(key: Key) { statTmp && open && download && rename && Tmp(key) !in gone }
  }

  /** The cache as one call, numbered 0, sees it. */
  function Seen(d: Disk, k: Key, stage: Stage): World {
    World(d.files, d.complete, d.next, map[0 := Call(k, stage)], if Holding(stage) then map[k := 0] else map[])
  }

  lemma OperateIsAStep(d: Disk, k: Key, stage: Stage, ok: bool)
    requires Holding(stage)
    ensures Apply(Seen(d, k, stage), Advance(0, ok)) == Seen(Operate(d, k, stage, ok).0, k, Operate(d, k, stage, ok).1)
  {
  }

  predicate OfCall(steps: seq<Step>, gone: seq<Path>) {
    forall s | s in steps :: (s.Advance? && s.id == 0) || (s.Remove? && s.path in gone)
  }

  /** The steps lead from where the call begins to here. */
  ghost predicate Leads(start: Disk, k: Key, gone: seq<Path>, steps: seq<Step>, d: Disk, stage: Stage) {
    OfCall(steps, gone) && Run(Seen(start, k, Waiting), steps) == Seen(d, k, stage)
  }

  lemma LockLeads(start: Disk, k: Key, gone: seq<Path>) returns (steps: seq<Step>)
    ensures Leads(start, k, gone, steps, start, Locked)
  {
    steps := [Advance(0, true)];
    assert steps[1..] == [];
    var v := Apply(Seen(start, k, Waiting), steps[0]);
    assert Run(v, []) == v && v == Seen(start, k, Locked);
  }

  lemma Follow(start: Disk, k: Key, gone: seq<Path>, steps: seq<Step>, d: Disk, stage: Stage, ok: bool)
    returns (more: seq<Step>)
    requires Leads(start, k, gone, steps, d, stage) && Holding(stage)
    ensures Leads(start, k, gone, more, Operate(d, k, stage, ok).0, Operate(d, k, stage, ok).1)
  {
    more := steps + [Advance(0, ok)];
    RunSnoc(Seen(start, k, Waiting), steps, Advance(0, ok));
    OperateIsAStep(d, k, stage, ok);
  }

  lemma FollowRemove(start: Disk, k: Key, gone: seq<Path>, steps: seq<Step>, d: Disk, stage: Stage, p: Path)
    returns (more: seq<Step>)
    requires Leads(start, k, gone, steps, d, stage) && p in gone
    ensures Leads(start, k, gone, more, d.(files := d.files - {p}), stage)
  {
    more := steps + [Remove(p)];
    RunSnoc(Seen(start, k, Waiting), steps, Remove(p));
  }

  class Storage {
    var disk: Disk
    var held: set<Key>

    method Delete(path: Path)
      modifies this`disk
      ensures disk == old(disk).(files := old(disk.files) - {path})
    {
      disk := disk.(files := disk.files - {path});
    }

    /** One call alone on its key: it is a run of the machine, and it leaves the disk as promised.
        Precondition: the call's turn for the key has come (it waits on the key's mutex otherwise). */
    method GetFile(key: Key, env: Environment) returns (r: Option<Inode>, ghost steps: seq<Step>)
      requires key !in held
      modifies this
      ensures held == old(held)
      ensures Leads(old(disk), key, env.gone, steps, disk, Returned(r))
      ensures r.Some? <==>
                env.statFinal && (old(key in disk.files) || (old(Tmp(key) !in disk.files) && env.Delivers(key)))
      ensures r.Some? ==> key in disk.files && disk.files[key] == r.value
      ensures old(key in disk.files) ==> disk == old(disk) && r.Some? == env.statFinal
      ensures old(key !in disk.files) && r.Some? ==> env.download && r.value in disk.complete && Tmp(key) !in disk.files
      ensures old(key !in disk.files) && r.None? ==> key !in disk.files
      ensures old(key !in disk.files && Tmp(key) in disk.files) ==> r.None? && disk == old(disk)
    {
      held := held + {key};
      ghost var d := disk;
      steps := LockLeads(d, key, env.gone);
      steps := Follow(d, key, env.gone, steps, disk, Locked, env.statFinal);
      if env.statFinal && key in disk.files {
        r := Some(disk.files[key]);
      } else if env.statFinal {
        r, steps := Fetch(key, env, d, steps);
      } else {
        r := None;
      }
      held := held - {key};
      assert Operate(disk, key, Leaving(r), true) == (disk, Returned(r));
      steps := Follow(d, key, env.gone, steps, disk, Leaving(r), true);
    }

    /** With no final file there. */
    method Fetch(key: Key, env: Environment, ghost start: Disk, ghost before: seq<Step>)
      returns (r: Option<Inode>, ghost steps: seq<Step>)
      requires key !in disk.files && Leads(start, key, env.gone, before, disk, Missing)
      modifies this`disk
      ensures Leads(start, key, env.gone, steps, disk, Leaving(r))
      ensures r.Some? <==> old(Tmp(key) !in disk.files) && env.Delivers(key)
      ensures r.Some? ==> env.download && r.value in disk.complete && key in disk.files && disk.files[key] == r.value
      ensures r.Some? ==> Tmp(key) !in disk.files
      ensures r.None? ==> key !in disk.files
      ensures old(Tmp(key) in disk.files) ==> r.None? && disk == old(disk)
    {
      r := None;
      steps := Follow(start, key, env.gone, before, disk, Missing, env.statTmp);
      if env.statTmp && Tmp(key) !in disk.files {
        steps := Follow(start, key, env.gone, steps, disk, Clear, env.open);
        if env.open {
          r, steps := Download(key, env, start, steps);
        }
      }
    }

    /** From opening the temporary file to its removal. */
    method Download(key: Key, env: Environment, ghost start: Disk, ghost before: seq<Step>)
      returns (r: Option<Inode>, ghost steps: seq<Step>)
      requires key !in disk.files && Tmp(key) !in disk.files
      requires Leads(start, key, env.gone, before, Operate(disk, key, Clear, true).0, Operate(disk, key, Clear, true).1)
      modifies this`disk
      ensures Leads(start, key, env.gone, steps, disk, Leaving(r))
      ensures r.Some? <==> env.download && env.rename && Tmp(key) !in env.gone
      ensures r.Some? ==> env.download && r.value in disk.complete && key in disk.files && disk.files[key] == r.value
      ensures r.Some? ==> Tmp(key) !in disk.files
      ensures r.None? ==> key !in disk.files
    {
      assert |Tmp(key)| != |key|;
      var f := disk.next;
      disk, r := disk.(files := disk.files[Tmp(key) := f], next := f + 1), None;
      steps := Follow(start, key, env.gone, before, disk, Downloading(f), env.download);
      if env.download {
        disk := disk.(complete := disk.complete + {f});
        r, steps := Commit(key, env, f, start, steps);
      }
      steps := Follow(start, key, env.gone, steps, disk, Cleaning(r), env.cleanUp);
      if env.cleanUp {
        disk := disk.(files := disk.files - {Tmp(key)});
      }
    }

    /** The rename, after whatever others have removed meanwhile. */
    method Commit(key: Key, env: Environment, f: Inode, ghost start: Disk, ghost before: seq<Step>)
      returns (r: Option<Inode>, ghost steps: seq<Step>)
      requires key !in disk.files && Tmp(key) in disk.files && disk.files[Tmp(key)] == f && f in disk.complete
      requires Leads(start, key, env.gone, before, disk, Downloaded(f))
      modifies this`disk
      ensures Leads(start, key, env.gone, steps, disk, Cleaning(r))
      ensures r.Some? <==> env.rename && Tmp(key) !in env.gone
      ensures r.Some? ==>
                r.value in disk.complete && key in disk.files && disk.files[key] == r.value && Tmp(key) !in disk.files
      ensures r.None? ==> key !in disk.files
    {
      assert |Tmp(key)| != |key|;
      r, steps := None, before;
      for i := 0 to |env.gone|
        invariant Leads(start, key, env.gone, steps, disk, Downloaded(f)) && f in disk.complete
        invariant key !in disk.files && (Tmp(key) in disk.files ==> disk.files[Tmp(key)] == f)
        invariant Tmp(key) in disk.files <==> Tmp(key) !in env.gone[..i]
      {
        steps := FollowRemove(start, key, env.gone, steps, disk, Downloaded(f), env.gone[i]);
        Delete(env.gone[i]);
        assert env.gone[..i + 1] == env.gone[..i] + [env.gone[i]];
      }
      assert env.gone[..|env.gone|] == env.gone;
      steps := Follow(start, key, env.gone, steps, disk, Downloaded(f), env.rename);
      if env.rename && Tmp(key) in disk.files {
        r := Some(disk.files[Tmp(key)]);
        disk := disk.(files := (disk.files - {Tmp(key)})[key := r.value]);
      }
    }
  }
}

/** The task list means what the user data means. */
module CloudInitMeaning {
  import opened Common
  import opened Sorting
  import opened Strings
  import opened CloudInit

  // ---- What user data means: file by file, then command by command ------------------------------

  function FileOf(m: Machine, f: WriteFile): Option<File> {
    match Meant(m, f)
    case None => None
    case Some(c) => Some(File(c, ParseOwner(f.owner), f.permissions))
  }

  /** The parent directory and the file, one after the other. */
  function WriteOne(m: Machine, fs: Disk, f: WriteFile): Option<Disk> {
    match (FileOf(m, f), MakeDir(fs, Dir(f.path)))
    case (Some(file), Some(fs')) => Put(fs', f.path, file)
    case _ => None
  }

  function WriteAll(m: Machine, fs: Disk, files: seq<WriteFile>): Option<Disk>
    decreases |files|
  {
    if files == [] then Some(fs)
    else match WriteOne(m, fs, files[0])
      case None => None
      case Some(fs') => WriteAll(m, fs', files[1..])
  }

  function RunAll(m: Machine, fs: Disk, cs: seq<Cmd>): Option<Disk>
    decreases |cs|
  {
    if cs == [] then Some(fs)
    else
      var r := match cs[0] case Line(cmd) => m.shell(cmd, fs) case Words(argv) => m.command(argv, fs);
      match r
      case None => None
      case Some(fs') => RunAll(m, fs', cs[1..])
  }

  function CloudInitOrder(m: Machine, fs: Disk, u: UserData): Option<Disk> {
    match WriteAll(m, fs, u.files)
    case None => None
    case Some(fs') => RunAll(m, fs', u.commands)
  }

  // ---- Directories ------------------------------------------------------------------------------

  function AncestorsOf(ds: set<string>): set<string> { set d, a | d in ds && a in Ancestors(d) :: a }

  function MakeAll(fs: Disk, ds: set<string>): Option<Disk> {
    if AncestorsOf(ds) * fs.files.Keys == {} then Some(fs.(dirs := fs.dirs + AncestorsOf(ds))) else None
  }

  lemma AncestorsOfMore(d: string, ds: set<string>)
    ensures AncestorsOf({d} + ds) == Ancestors(d) + AncestorsOf(ds)
  {
    assert forall a | a in Ancestors(d) :: d in {d} + ds && a in AncestorsOf({d} + ds);
    assert forall e, a | e in ds && a in Ancestors(e) :: e in {d} + ds;
  }

  lemma MakeOneMore(fs: Disk, d: string, ds: set<string>)
    ensures MakeAll(fs, {d} + ds) == match MakeDir(fs, d) case None => None case Some(fs') => MakeAll(fs', ds)
  {
    AncestorsOfMore(d, ds);
    var a, b, k := Ancestors(d), AncestorsOf(ds), fs.files.Keys;
    assert (a + b) * k == (a * k) + (b * k);
    assert fs.dirs + (a + b) == fs.dirs + a + b;
  }

  lemma NoDirectories(fs: Disk)
    ensures MakeAll(fs, {}) == Some(fs)
  {
    assert AncestorsOf({}) == {};
    assert fs.dirs + {} == fs.dirs;
  }

  lemma {:induction false} RunDirectories(m: Machine, fs: Disk, dirs: seq<string>)
    ensures RunTasks(m, fs, Directories(dirs)) == MakeAll(fs, set d | d in dirs)
    decreases |dirs|
  {
    if dirs == [] {
      NoDirectories(fs);
      assert (set d | d in dirs) == {};
    } else {
      assert Directories(dirs)[1..] == Directories(dirs[1..]);
      assert (set d | d in dirs) == {dirs[0]} + (set d | d in dirs[1..]);
      MakeOneMore(fs, dirs[0], set d | d in dirs[1..]);
      if MakeDir(fs, dirs[0]).Some? {
        RunDirectories(m, MakeDir(fs, dirs[0]).value, dirs[1..]);
      }
    }
  }

  /** A file whose parent exists can be written before or after other directories are made. */
  lemma PutCommutes(fs: Disk, path: string, f: File, ds: set<string>)
    requires Dir(path) in fs.dirs
    ensures (match Put(fs, path, f) case None => None case Some(fs') => MakeAll(fs', ds))
         == (match MakeAll(fs, ds) case None => None case Some(fs') => Put(fs', path, f))
  {
    var a := AncestorsOf(ds);
    var keys := fs.files.Keys;
    assert fs.files[path := f].Keys == keys + {path};
    assert a * (keys + {path}) == (a * keys) + (a * {path});
    assert a * {path} == {} <==> path !in a by {
      if path in a { assert path in a * {path}; }
    }
  }

  // ---- The whole --------------------------------------------------------------------------------

  lemma {:induction false} RunJoin(m: Machine, fs: Disk, a: seq<Task>, b: seq<Task>)
    ensures RunTasks(m, fs, a + b) ==
            match RunTasks(m, fs, a) case None => None case Some(fs') => RunTasks(m, fs', b)
    decreases |a|
  {
    if a == [] {
      assert a + b == b;
    } else {
      assert (a + b)[0] == a[0] && (a + b)[1..] == a[1..] + b;
      if RunTask(m, fs, a[0]).Some? {
        RunJoin(m, RunTask(m, fs, a[0]).value, a[1..], b);
      }
    }
  }

  predicate HasEmptyFile(m: Machine, files: seq<WriteFile>) { exists f :: f in files && Decoded(m, f) == Some("") }

  lemma {:induction false} EmptyFileFails(m: Machine, fs: Disk, files: seq<WriteFile>)
    requires AllDecode(m, files) && HasEmptyFile(m, files)
    ensures RunTasks(m, fs, Copies(m, files)) == None
    decreases |files|
  {
    var f :| f in files && Decoded(m, f) == Some("");
    var first, rest := files[0], files[1..];
    assert files == [first] + rest;
    CopiesOfMore(m, first, rest);
    if f != first && RunTask(m, fs, CopyOf(m, first).value).Some? {
      assert f in rest;
      EmptyFileFails(m, RunTask(m, fs, CopyOf(m, first).value).value, rest);
    }
  }

  /** All parents, and then the files. */
  function ParentsThenFiles(m: Machine, fs: Disk, files: seq<WriteFile>): Option<Disk>
    requires AllDecode(m, files)
  {
    match MakeAll(fs, DirsOf(files))
    case None => None
    case Some(fs') => RunTasks(m, fs', Copies(m, files))
  }

  lemma DirsOfMore(f: WriteFile, rest: seq<WriteFile>)
    ensures DirsOf([f] + rest) == {Dir(f.path)} + DirsOf(rest)
  {
    var all := [f] + rest;
    assert forall g | g in all :: g == f || g in rest;
    assert f == all[0] && f in all && forall g | g in rest :: g in all;
  }

  lemma CopiesOfMore(m: Machine, f: WriteFile, rest: seq<WriteFile>)
    requires AllDecode(m, [f] + rest)
    ensures CopyOf(m, f).Some? && AllDecode(m, rest)
    ensures Copies(m, [f] + rest) == [CopyOf(m, f).value] + Copies(m, rest)
  {
    MoreDecode(m, f, rest);
    var all := [f] + rest;
    CopiesOfRest(m, all);
    assert all[0] == f && all[1..] == rest;
  }

  lemma CopiesOfRest(m: Machine, files: seq<WriteFile>)
    requires files != [] && AllDecode(m, files) && AllDecode(m, files[1..])
    ensures Copies(m, files) == [CopyOf(m, files[0]).value] + Copies(m, files[1..])
  {
  }

  lemma MoreDecode(m: Machine, f: WriteFile, rest: seq<WriteFile>)
    ensures AllDecode(m, [f] + rest) <==> CopyOf(m, f).Some? && AllDecode(m, rest)
  {
    var all := [f] + rest;
    assert all[0] == f && forall g | g in rest :: g in all;
  }

  /** Directories can be made after a file that follows them. */
  lemma PutThenDirectories(m: Machine, fs: Disk, f: WriteFile, ds: set<string>, rest: seq<Task>)
    requires CopyOf(m, f).Some? && Decoded(m, f) != Some("") && Dir(f.path) in fs.dirs
    ensures (match MakeAll(fs, ds)
             case None => None
             case Some(fs') => RunTasks(m, fs', [CopyOf(m, f).value] + rest))
         == (match Put(fs, f.path, CopyOf(m, f).value.file)
             case None => None
             case Some(fs1) => match MakeAll(fs1, ds) case None => None case Some(fs2) => RunTasks(m, fs2, rest))
  {
    PutCommutes(fs, f.path, CopyOf(m, f).value.file, ds);
    assert ([CopyOf(m, f).value] + rest)[1..] == rest;
  }

  /** A file can be taken out of the plan and written first. */
  lemma FirstFileFirst(m: Machine, fs: Disk, f: WriteFile, rest: seq<WriteFile>)
    requires AllDecode(m, [f] + rest) && AllDecode(m, rest) && CopyOf(m, f).Some? && Decoded(m, f) != Some("")
    ensures ParentsThenFiles(m, fs, [f] + rest) ==
            match MakeDir(fs, Dir(f.path))
            case None => None
            case Some(fs1) =>
              match Put(fs1, f.path, CopyOf(m, f).value.file)
              case None => None
              case Some(fs2) => ParentsThenFiles(m, fs2, rest)
  {
    DirsOfMore(f, rest);
    MakeOneMore(fs, Dir(f.path), DirsOf(rest));
    CopiesOfMore(m, f, rest);
    if MakeDir(fs, Dir(f.path)).Some? {
      PutThenDirectories(m, MakeDir(fs, Dir(f.path)).value, f, DirsOf(rest), Copies(m, rest));
    }
  }

  /** All parents first, then the files, is the same as file by file. */
  lemma {:induction false} DirectoriesFirst(m: Machine, fs: Disk, files: seq<WriteFile>)
    requires AllDecode(m, files) && !HasEmptyFile(m, files)
    requires forall f | f in files :: Decoded(m, f) == Meant(m, f)
    ensures WriteAll(m, fs, files) == ParentsThenFiles(m, fs, files)
    decreases |files|
  {
    if files == [] {
      NoDirectories(fs);
      assert DirsOf(files) == {};
    } else {
      var f, rest := files[0], files[1..];
      assert f in files && forall g | g in rest :: g in files;
      assert files == [f] + rest;
      assert WriteOne(m, fs, f) == match MakeDir(fs, Dir(f.path))
        case None => None
        case Some(fs1) => Put(fs1, f.path, CopyOf(m, f).value.file);
      FirstFileFirst(m, fs, f, rest);
      if WriteOne(m, fs, f).Some? {
        DirectoriesFirst(m, WriteOne(m, fs, f).value, rest);
      }
    }
  }

  /** A command that Ansible cannot carry out: a list, or nothing. */
  predicate Broken(c: Cmd) { c.Words? || c.cmd == "" }

  predicate HasBroken(cs: seq<Cmd>) { exists c :: c in cs && Broken(c) }

  lemma {:induction false} RunCommands(m: Machine, fs: Disk, cs: seq<Cmd>)
    ensures RunTasks(m, fs, Commands(cs)) == if HasBroken(cs) then None else RunAll(m, fs, cs)
    decreases |cs|
  {
    if cs != [] {
      assert Commands(cs)[1..] == Commands(cs[1..]);
      assert HasBroken(cs) <==> Broken(cs[0]) || HasBroken(cs[1..]) by {
        assert forall c | c in cs :: c == cs[0] || c in cs[1..];
      }
      if !Broken(cs[0]) && m.shell(cs[0].cmd, fs).Some? {
        RunCommands(m, m.shell(cs[0].cmd, fs).value, cs[1..]);
      }
    }
  }

  lemma ListingHasTheSet(dirs: seq<string>, s: set<string>)
    requires SortedListing(dirs, s)
    ensures (set d | d in dirs) == s
  {
    forall d ensures d in dirs <==> d in s {
      assert d in dirs <==> d in multiset(dirs);
      assert d in multiset(s) <==> d in s;
    }
  }

  /** What the task list does, for all user data whose files are decoded as their encodings say, on every disk and
      machine: it fails if some file is empty or some command is a list or empty, and otherwise ends exactly as
      cloud-init's order does, in success and in failure. */
  lemma TaskListMeans(m: Machine, fs: Disk, u: UserData, dirs: seq<string>)
    requires AllDecode(m, u.files) && SortedListing(dirs, DirsOf(u.files))
    requires forall f | f in u.files :: Decoded(m, f) == Meant(m, f)
    ensures RunTasks(m, fs, Directories(dirs) + Copies(m, u.files) + Commands(u.commands)) ==
            if HasEmptyFile(m, u.files) || HasBroken(u.commands) then None else CloudInitOrder(m, fs, u)
  {
    var a, b, c := Directories(dirs), Copies(m, u.files), Commands(u.commands);
    RunJoin(m, fs, a + b, c);
    RunJoin(m, fs, a, b);
    RunDirectories(m, fs, dirs);
    ListingHasTheSet(dirs, DirsOf(u.files));
    if HasEmptyFile(m, u.files) {
      if RunTasks(m, fs, a).Some? {
        EmptyFileFails(m, RunTasks(m, fs, a).value, u.files);
      }
    } else {
      DirectoriesFirst(m, fs, u.files);
      if RunTasks(m, fs, a + b).Some? {
        RunCommands(m, RunTasks(m, fs, a + b).value, u.commands);
      }
    }
  }

  /** The promise, on what the adapter is made for: files of a single encoding that are not empty, and commands that
      are strings and not empty. */
  lemma TranslationKeepsMeaning(m: Machine, fs: Disk, u: UserData, dirs: seq<string>)
    requires AllDecode(m, u.files) && SortedListing(dirs, DirsOf(u.files))
    requires (forall f | f in u.files :: !IsPair(f)) && !HasEmptyFile(m, u.files) && !HasBroken(u.commands)
    ensures RunTasks(m, fs, Directories(dirs) + Copies(m, u.files) + Commands(u.commands)) == CloudInitOrder(m, fs, u)
  {
    forall f | f in u.files ensures Decoded(m, f) == Meant(m, f) {
      DecodingIsCompleteExactly(m, f);
    }
    TaskListMeans(m, fs, u, dirs);
  }

  /** A file that the adapter cannot decode cannot be written by cloud-init either. */
  lemma BadFileFails(m: Machine, fs: Disk, f: WriteFile)
    requires CopyOf(m, f).None?
    ensures WriteOne(m, fs, f) == None
  {
    DecodedMeans(m, f);
  }

  /** No playbook at all comes only from user data that cannot be carried out either. */
  lemma {:induction false} NoPlaybookOnlyForBadFiles(m: Machine, fs: Disk, files: seq<WriteFile>)
    requires !AllDecode(m, files)
    ensures WriteAll(m, fs, files) == None
    decreases |files|
  {
    var f :| f in files && CopyOf(m, f).None?;
    if f == files[0] {
      BadFileFails(m, fs, f);
    } else {
      assert f in files[1..];
      if WriteOne(m, fs, files[0]).Some? {
        NoPlaybookOnlyForBadFiles(m, WriteOne(m, fs, files[0]).value, files[1..]);
      }
    }
  }

  /** Before a file is copied, a task has made its directory. */
  lemma ParentsComeFirst(m: Machine, u: UserData, dirs: seq<string>, i: nat)
    requires AllDecode(m, u.files) && SortedListing(dirs, DirsOf(u.files))
    requires var tasks := Directories(dirs) + Copies(m, u.files) + Commands(u.commands); i < |tasks| && tasks[i].Copy?
    ensures var tasks := Directories(dirs) + Copies(m, u.files) + Commands(u.commands);
            exists j :: 0 <= j < i && tasks[j] == MakeDirectory(Dir(tasks[i].dest))
  {
    var tasks := Directories(dirs) + Copies(m, u.files) + Commands(u.commands);
    var k := i - |dirs|;
    var f := u.files[k];
    assert tasks[i] == CopyOf(m, f).value;
    ListingHasTheSet(dirs, DirsOf(u.files));
    assert f in u.files && Dir(f.path) in DirsOf(u.files);
    assert Dir(f.path) in (set d | d in dirs);
    var j :| 0 <= j < |dirs| && dirs[j] == Dir(f.path);
    assert tasks[j] == MakeDirectory(dirs[j]);
  }

  /** The directory tasks are distinct and ascend. */
  lemma DirectoriesAscend(dirs: seq<string>, s: set<string>, i: nat, j: nat)
    requires SortedListing(dirs, s) && i < j < |dirs|
    ensures StringLe(dirs[i], dirs[j]) && dirs[i] != dirs[j]
  {
    TwiceInMultiset(dirs, i, j);
    assert dirs[i] in multiset(dirs);
  }
}

/**
 From cloud-init user data to an Ansible task list (cluster-api-provider-kubeforce/pkg/cloudinit): all directories
 first, then the files, then the commands. The meaning of both is given on an abstract file system.
 */
module CloudInit {
  import opened Common
  import opened Sorting
  import opened Strings

  datatype WriteFile = WriteFile(path: string, owner: string, permissions: string, encoding: string, content: string)

  datatype Cmd = Line(cmd: string) | Words(argv: seq<string>)

  datatype UserData = UserData(files: seq<WriteFile>, commands: seq<Cmd>)

  /** A file as it is to be: without an owner the system's default applies. */
  datatype File = File(content: string, owner: Option<(string, string)>, mode: string)

  datatype Task =
    | MakeDirectory(dest: string)
    | Copy(dest: string, file: File)
    | Shell(cmd: string)
    | Command(argv: seq<string>)

  // ---- The file system --------------------------------------------------------------------------

  datatype Disk = Disk(dirs: set<string>, files: map<string, File>)

  /** The decoders, and what a command does to the disk; None is failure. */
  datatype Machine = Machine(
    base64: string -> Option<string>, gunzip: string -> Option<string>,
    shell: (string, Disk) -> Option<Disk>, command: (seq<string>, Disk) -> Option<Disk>)

  /** A directory and all above it. */
  function Ancestors(d: string): set<string>
    decreases if d == "/" || d == "." then 0 else |d| + 1
  {
    if d == "/" || d == "." then {d} else {d} + Ancestors(Dir(d))
  }

  function MakeDir(fs: Disk, d: string): Option<Disk> {
    if Ancestors(d) * fs.files.Keys == {} then Some(fs.(dirs := fs.dirs + Ancestors(d))) else None
  }

  function Put(fs: Disk, path: string, f: File): Option<Disk> {
    if path != "" && Dir(path) in fs.dirs && path !in fs.dirs then Some(fs.(files := fs.files[path := f])) else None
  }

  /** How Ansible reads a task that was written out. An empty field is left out of the text, so a copy of an empty file
      and an empty shell line lack what they need and fail. The key of a command task is the copy module's, and a copy
      without a destination fails. */
  function RunTask(m: Machine, fs: Disk, t: Task): Option<Disk> {
    match t
    case MakeDirectory(d) => MakeDir(fs, d)
    case Copy(dest, f) => if f.content == "" then None else Put(fs, dest, f)
    case Shell(cmd) => if cmd == "" then None else m.shell(cmd, fs)
    case Command(_) => None
  }

  /** Tasks run in order up to the first failure. */
  function RunTasks(m: Machine, fs: Disk, tasks: seq<Task>): Option<Disk>
    decreases |tasks|
  {
    if tasks == [] then Some(fs)
    else match RunTask(m, fs, tasks[0])
      case None => None
      case Some(fs') => RunTasks(m, fs', tasks[1..])
  }

  // ---- Encodings --------------------------------------------------------------------------------

  datatype Encoding = Gzip | Base64 | Plain

  function FixEncoding(e: string): seq<Encoding> {
    var s := TrimSpace(ToLower(e));
    if s == "gz" || s == "gzip" then [Gzip]
    else if s == "gz+base64" || s == "gzip+base64" || s == "gz+b64" || s == "gzip+b64" then [Base64, Gzip]
    else if s == "base64" || s == "b64" then [Base64]
    else [Plain]
  }

  function DecodeOne(m: Machine, content: string, e: Encoding): Option<string> {
    match e
    case Gzip => m.gunzip(content)
    case Base64 => m.base64(content)
    case Plain => Some(content)
  }

  /** What cloud-init's encoding names mean, whatever their case and the space around them. */
  function Meant(m: Machine, f: WriteFile): Option<string> {
    var name := TrimSpace(ToLower(f.encoding));
    if name in {"gz", "gzip"} then m.gunzip(f.content)
    else if name in {"base64", "b64"} then m.base64(f.content)
    else if name in PAIR_NAMES then
      match m.base64(f.content)
      case None => None
      case Some(zipped) => m.gunzip(zipped)
    else Some(f.content)
  }

  const PAIR_NAMES := {"gz+base64", "gzip+base64", "gz+b64", "gzip+b64"}

  /** The source's loop returns from its first round. */
  method FixContent(m: Machine, content: string, es: seq<Encoding>) returns (r: Option<string>)
    ensures r == if es == [] then Some(content) else DecodeOne(m, content, es[0])
  {
    for i := 0 to |es|
      invariant i == 0
    {
      match es[i]
      case Base64 => return m.base64(content);
      case Gzip => return m.gunzip(content);
      case Plain => return Some(content);
    }
    return Some(content);
  }

  function Decoded(m: Machine, f: WriteFile): Option<string> { DecodeOne(m, f.content, FixEncoding(f.encoding)[0]) }

  predicate IsPair(f: WriteFile) { TrimSpace(ToLower(f.encoding)) in PAIR_NAMES }

  /** What the adapter decodes: by the decoder of the name, or for a pair by the first one only. */
  lemma DecodedMeans(m: Machine, f: WriteFile)
    ensures Decoded(m, f) == if IsPair(f) then m.base64(f.content) else Meant(m, f)
  {
  }

  /** A file is decoded as its encoding says exactly when the encoding is not a pair, or the first layer is broken, or
      the second one changes nothing. */
  lemma DecodingIsCompleteExactly(m: Machine, f: WriteFile)
    ensures Decoded(m, f) == Meant(m, f) <==>
            !IsPair(f) || m.base64(f.content).None? || m.gunzip(m.base64(f.content).value) == m.base64(f.content)
  {
    DecodedMeans(m, f);
  }

  function ParseOwner(s: string): Option<(string, string)> {
    var parts := Split(TrimSpace(s), ':');
    if |parts| == 2 then Some((parts[0], parts[1])) else None
  }

  // ---- Translation ------------------------------------------------------------------------------

  function CopyOf(m: Machine, f: WriteFile): Option<Task> {
    match Decoded(m, f)
    case None => None
    case Some(c) => Some(Copy(f.path, File(c, ParseOwner(f.owner), f.permissions)))
  }

  predicate AllDecode(m: Machine, files: seq<WriteFile>) { forall f | f in files :: CopyOf(m, f).Some? }

  function Copies(m: Machine, files: seq<WriteFile>): seq<Task>
    requires AllDecode(m, files)
  {
    seq(|files|, i requires 0 <= i < |files| => CopyOf(m, files[i]).value)
  }

  function DirsOf(files: seq<WriteFile>): set<string> { set f | f in files :: Dir(f.path) }

  function Directories(dirs: seq<string>): seq<Task> {
    seq(|dirs|, i requires 0 <= i < |dirs| => MakeDirectory(dirs[i]))
  }

  function CommandTask(c: Cmd): Task {
    match c
    case Line(cmd) => Shell(cmd)
    case Words(argv) => Command(argv)
  }

  function Commands(cs: seq<Cmd>): seq<Task> {
    seq(|cs|, i requires 0 <= i < |cs| => CommandTask(cs[i]))
  }

  /** dirs lists a set of directories, each once, in the order of sort.Strings. */
  ghost predicate SortedListing(dirs: seq<string>, s: set<string>) {
    multiset(dirs) == multiset(s) && Sorted(StringLe, dirs)
  }

  method OwnerAndGroup(s: string) returns (r: Option<(string, string)>)
    ensures r == ParseOwner(s)
  {
    r := None;
    var owner := Split(TrimSpace(s), ':');
    if |owner| == 2 {
      r := Some((owner[0], owner[1]));
    }
  }

  /** The owner is a user and a group exactly when one colon parts it. */
  lemma OwnerMeans(s: string, user: string, group: string)
    requires ':' !in user && ':' !in group
    ensures ParseOwner(s) == Some((user, group)) <==> TrimSpace(s) == user + ":" + group
  {
    SplitMeans(TrimSpace(s), ':');
    SplitOfTwo(user, group, ':');
    var parts := Split(TrimSpace(s), ':');
    if parts == [user, group] {
      assert Join(parts[1..], ':') == group;
    }
  }

  method WriteFileToTask(m: Machine, f: WriteFile) returns (r: Option<Task>)
    ensures r == CopyOf(m, f)
    ensures var name := TrimSpace(ToLower(f.encoding));
            && (r.Some? ==> r.value.Copy? && r.value.dest == f.path && r.value.file.mode == f.permissions
                            && r.value.file.owner == ParseOwner(f.owner))
            && (if r.None? then None else Some(r.value.file.content))
               == (if name == "gz" || name == "gzip" then m.gunzip(f.content)
                   else if name == "base64" || name == "b64" || IsPair(f) then m.base64(f.content)
                   else Some(f.content))
  {
    DecodedMeans(m, f);
    var ownership := OwnerAndGroup(f.owner);
    var encodings := FixEncoding(f.encoding);
    var content := FixContent(m, f.content, encodings);
    if content.None? {
      return None;
    }
    r := Some(Copy(f.path, File(content.value, ownership, f.permissions)));
  }

  lemma OneMoreFile(m: Machine, files: seq<WriteFile>, i: nat)
    requires i < |files| && AllDecode(m, files[..i]) && CopyOf(m, files[i]).Some?
    ensures AllDecode(m, files[..i + 1])
    ensures Copies(m, files[..i + 1]) == Copies(m, files[..i]) + [CopyOf(m, files[i]).value]
    ensures DirsOf(files[..i + 1]) == DirsOf(files[..i]) + {Dir(files[i].path)}
  {
    assert files[..i + 1] == files[..i] + [files[i]];
  }

  /** The task list, or None if a file cannot be decoded. */
  method UserDataToTasks(m: Machine, u: UserData) returns (r: Option<seq<Task>>, ghost dirs: seq<string>)
    ensures r.Some? <==> AllDecode(m, u.files)
    ensures r.Some? ==> SortedListing(dirs, DirsOf(u.files))
                        && r.value == Directories(dirs) + Copies(m, u.files) + Commands(u.commands)
    ensures r.Some? ==>
              var n, k := |dirs|, |dirs| + |u.files|;
              && |r.value| == k + |u.commands|
              && (forall i | 0 <= i < n :: r.value[i].MakeDirectory? && r.value[i].dest == dirs[i])
              && (forall i | 0 <= i < |u.files| :: r.value[n + i].Copy? && r.value[n + i].dest == u.files[i].path)
              && (forall i | 0 <= i < |u.commands| ::
                    if u.commands[i].Line? then r.value[k + i].Shell? && r.value[k + i].cmd == u.commands[i].cmd
                    else r.value[k + i].Command? && r.value[k + i].argv == u.commands[i].argv)
  {
    dirs := [];
    var copyTasks: seq<Task> := [];
    var dirMap: set<string> := {};
    for i := 0 to |u.files|
      invariant AllDecode(m, u.files[..i]) && copyTasks == Copies(m, u.files[..i])
      invariant dirMap == DirsOf(u.files[..i])
    {
      var task := WriteFileToTask(m, u.files[i]);
      if task.None? {
        assert u.files[i] in u.files;
        return None, [];
      }
      OneMoreFile(m, u.files, i);
      copyTasks := copyTasks + [task.value];
      dirMap := dirMap + {Dir(u.files[i].path)};
    }
    assert u.files[..|u.files|] == u.files;
    var listed := ListDirectories(dirMap);
    var tasks := AddTasks(listed, copyTasks, u.commands);
    return Some(tasks), listed;
  }

  method AddTasks(dirs: seq<string>, copyTasks: seq<Task>, cs: seq<Cmd>) returns (tasks: seq<Task>)
    ensures tasks == Directories(dirs) + copyTasks + Commands(cs)
  {
    tasks := [];
    for i := 0 to |dirs|
      invariant tasks == Directories(dirs)[..i]
    {
      tasks := tasks + [MakeDirectory(dirs[i])];
    }
    tasks := tasks + copyTasks;
    for i := 0 to |cs|
      invariant tasks == Directories(dirs) + copyTasks + Commands(cs)[..i]
    {
      tasks := tasks + [CommandTask(cs[i])];
    }
  }

  method ListDirectories(dirMap: set<string>) returns (dirs: seq<string>)
    ensures SortedListing(dirs, dirMap)
  {
    dirs := [];
    var todo := dirMap;
    while todo != {}
      invariant todo <= dirMap && multiset(dirs) == multiset(dirMap - todo)
      decreases todo
    {
      var d :| d in todo;
      assert dirMap - (todo - {d}) == (dirMap - todo) + {d};
      dirs, todo := dirs + [d], todo - {d};
    }
    assert dirMap - {} == dirMap;
    dirs := SortStrings(dirs);
  }
}

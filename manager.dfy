/**
 * The Supervisor manager's persistent state: where its state directory
 * lives, the files inside it, the clean-up of cached health checks at
 * start-up, and the process lock that keeps a second Supervisor out.
 *
 * Paths are sequences of components below the filesystem root. The
 * filesystem is a map from paths to file entries; directory listings,
 * failed removals and liveness of a pid are inputs.
 */
module Manager {
  import opened Wrappers
  import Str = Text
  import PS = ProtocolService

  type Path = seq<string>

  const MemberIdFile: string := "MEMBER_ID"
  const ProcLockFile: string := "LOCK"

  /** Unix `pid_t` is a signed 32-bit integer. */
  const PidMin: int := -0x8000_0000
  const PidMax: int := 0x7FFF_FFFF

  /** `STATE_PATH_PREFIX`: `hab/sup` below the filesystem root. */
  function StatePathPrefix(fsRoot: Path): Path
  {
    fsRoot + ["hab", "sup"]
  }

  /** The components of a path text: empty and "." components drop out. */
  function Components(s: string): (r: Path)
    ensures forall i :: 0 <= i < |r| ==> r[i] != "" && r[i] != "."
  {
    var parts := Str.Split(s, '/');
    Normal(parts)
  }

  function Normal(parts: seq<string>): (r: Path)
    ensures forall i :: 0 <= i < |r| ==> r[i] != "" && r[i] != "."
    ensures |r| <= |parts|
  {
    if parts == [] then []
    else if parts[0] == "" || parts[0] == "." then Normal(parts[1..])
    else [parts[0]] + Normal(parts[1..])
  }

  /** `Path::join` on an absolute path: an absolute argument replaces the path. */
  function Join(p: Path, s: string): (r: Path)
    ensures |s| > 0 && s[0] == '/' ==> r == Components(s)
  {
    if |s| > 0 && s[0] == '/' then Components(s) else p + Components(s)
  }

  /** Joining a plain file name, one with no '/' that is neither "" nor ".", appends it. */
  lemma JoinName(p: Path, name: string)
    requires name != "" && name != "." && '/' !in name
    ensures Join(p, name) == p + [name]
  {
    Str.JoinSplit(name, '/');
    assert Str.Split(name, '/') == [name];
  }

  /** The fields of `ManagerConfig` that decide where state lives. */
  datatype ManagerConfig = ManagerConfig(name: Option<string>, customStatePath: Option<Path>)

  /** `Manager::state_path_from`. */
  function StatePathFrom(fsRoot: Path, cfg: ManagerConfig): Path
  {
    match cfg.customStatePath
    case Some(custom) => custom
    case None =>
      match cfg.name
      case Some(name) => Join(StatePathPrefix(fsRoot), name)
      case None => Join(StatePathPrefix(fsRoot), "default")
  }

  /** A custom path wins over any name; otherwise the name, or "default", sits under the prefix. */
  lemma StatePathChoice(fsRoot: Path, custom: Path, name: string)
    requires name != "" && name != "." && '/' !in name
    ensures StatePathFrom(fsRoot, ManagerConfig(Some(name), Some(custom))) == custom
    ensures StatePathFrom(fsRoot, ManagerConfig(None, Some(custom))) == custom
    ensures StatePathFrom(fsRoot, ManagerConfig(Some(name), None)) == fsRoot + ["hab", "sup", name]
    ensures StatePathFrom(fsRoot, ManagerConfig(None, None)) == fsRoot + ["hab", "sup", "default"]
  {
    JoinName(StatePathPrefix(fsRoot), name);
    JoinName(StatePathPrefix(fsRoot), "default");
  }

  datatype FsCfg = FsCfg(dataPath: Path, compositesPath: Path, memberIdFile: Path, procLockFile: Path)

  function DataPath(statePath: Path): Path { Join(statePath, "data") }
  function CompositesPath(statePath: Path): Path { Join(statePath, "composites") }

  /** `FsCfg::new`. */
  function NewFsCfg(root: Path): FsCfg
  {
    FsCfg(DataPath(root), CompositesPath(root), Join(root, MemberIdFile), Join(root, ProcLockFile))
  }

  /** The four paths are distinct direct children of the root, named as the constants say. */
  lemma FsCfgLayout(root: Path)
    ensures var c := NewFsCfg(root);
      c.dataPath == root + ["data"] && c.compositesPath == root + ["composites"] &&
      c.memberIdFile == root + ["MEMBER_ID"] && c.procLockFile == root + ["LOCK"]
    ensures var c := NewFsCfg(root);
      c.dataPath != c.compositesPath && c.dataPath != c.memberIdFile && c.dataPath != c.procLockFile &&
      c.compositesPath != c.memberIdFile && c.compositesPath != c.procLockFile && c.memberIdFile != c.procLockFile
  {
    JoinName(root, "data");
    JoinName(root, "composites");
    JoinName(root, MemberIdFile);
    JoinName(root, ProcLockFile);
    var c := NewFsCfg(root);
    assert c.dataPath[|root|] == "data" && c.compositesPath[|root|] == "composites";
    assert c.memberIdFile[|root|] == "MEMBER_ID" && c.procLockFile[|root|] == "LOCK";
  }

  /** Index of the last '.' of a file name. */
  function LastDot(name: string): (r: Option<nat>)
    ensures r.Some? ==> r.value < |name| && name[r.value] == '.' && '.' !in name[r.value + 1..]
    ensures r.None? ==> '.' !in name
  {
    if name == [] then None
    else if name[|name| - 1] == '.' then Some(|name| - 1)
    else
      match LastDot(name[..|name| - 1])
      case None =>
        assert name == name[..|name| - 1] + [name[|name| - 1]];
        None
      case Some(i) =>
        assert name[i + 1..] == name[..|name| - 1][i + 1..] + [name[|name| - 1]];
        Some(i)
  }

  /** `Path::extension` of a file name: after the last '.', unless that dot leads the name. */
  function Extension(name: string): Option<string>
  {
    if name == ".." then None
    else
      match LastDot(name)
      case None => None
      case Some(i) => if i == 0 then None else Some(name[i + 1..])
  }

  /** `Path::file_stem` of a file name. */
  function FileStem(name: string): (r: string)
    ensures name != "" && name != ".." ==> r != ""
  {
    if name == ".." then name
    else
      match LastDot(name)
      case None => name
      case Some(i) => if i == 0 then name else name[..i]
  }

  /** `PathBuf::set_extension`: replaces the last name's extension; no name, no change. */
  function SetExtension(p: Path, ext: string): Path
  {
    if p == [] || p[|p| - 1] == ".." then p
    else
      var stem := FileStem(p[|p| - 1]);
      p[..|p| - 1] + [if ext == "" then stem else stem + "." + ext]
  }

  /** `Manager::composite_path_by_ident`. */
  function CompositePathByIdent(fsRoot: Path, cfg: ManagerConfig, ident: PS.PackageIdent): Path
  {
    SetExtension(Join(CompositesPath(StatePathFrom(fsRoot, cfg)), ident.name), "spec")
  }

  /** A package's composite file sits in the composites directory and has the extension "spec". */
  lemma CompositePathShape(fsRoot: Path, cfg: ManagerConfig, ident: PS.PackageIdent)
    requires ident.name != "" && ident.name != "." && ident.name != ".." && '/' !in ident.name
    ensures var p := CompositePathByIdent(fsRoot, cfg, ident);
      |p| >= 1 && p[..|p| - 1] == CompositesPath(StatePathFrom(fsRoot, cfg)) &&
      Extension(p[|p| - 1]) == Some("spec")
    ensures '.' !in ident.name ==>
      CompositePathByIdent(fsRoot, cfg, ident) == CompositesPath(StatePathFrom(fsRoot, cfg)) + [ident.name + ".spec"]
  {
    var dir := CompositesPath(StatePathFrom(fsRoot, cfg));
    JoinName(dir, ident.name);
    SpecFileIn(dir, ident.name);
  }

  lemma SpecFileIn(dir: Path, name: string)
    requires name != "" && name != ".."
    ensures var p := SetExtension(dir + [name], "spec");
      |p| >= 1 && p[..|p| - 1] == dir && Extension(p[|p| - 1]) == Some("spec")
    ensures '.' !in name ==> SetExtension(dir + [name], "spec") == dir + [name + ".spec"]
  {
    var joined := dir + [name];
    assert joined[..|joined| - 1] == dir && joined[|joined| - 1] == name;
    var stem := FileStem(name);
    SpecExtension(stem);
    if '.' !in name {
      assert LastDot(name).None?;
      assert stem == name;
      assert SetExtension(joined, "spec") == dir + [stem + "." + "spec"];
      assert stem + "." + "spec" == name + ".spec";
    }
  }

  lemma SpecExtension(stem: string)
    requires stem != ""
    ensures Extension(stem + "." + "spec") == Some("spec")
  {
    var last := stem + "." + "spec";
    assert last[|stem|] == '.' && last[|stem| + 1..] == "spec";
    assert LastDot(last) == Some(|stem|);
  }

  /**
   * What a path holds: text the Supervisor can read, something it cannot
   * open, or a file that opens but whose first line cannot be read (not
   * UTF-8, or a read error).
   */
  datatype FileEntry = Readable(text: string) | Unreadable | Undecodable

  datatype ManagerError = BadDataPath(path: Path) | ProcessLockCorrupt | ProcessLockIO(path: Path) | ProcessLocked(pid: int)

  /** Whether `clean_dirty_state` deletes a data-directory entry of this name. */
  predicate IsDirty(name: string)
  {
    Extension(name) == Some("tmp") || Extension(name) == Some("health")
  }

  /** The paths of the listed entries `clean_dirty_state` deletes. */
  function DirtyPaths(dataPath: Path, entries: seq<Option<string>>): set<Path>
  {
    if entries == [] then {}
    else
      var rest := DirtyPaths(dataPath, entries[1..]);
      match entries[0]
      case Some(name) => if IsDirty(name) then {dataPath + [name]} + rest else rest
      case None => rest
  }

  /** The dirty paths are the data directory's children named by a listed dirty entry. */
  lemma {:induction false} DirtyPathsIff(dataPath: Path, entries: seq<Option<string>>, p: Path)
    ensures p in DirtyPaths(dataPath, entries) <==>
      |p| == |dataPath| + 1 && p[..|dataPath|] == dataPath && IsDirty(p[|dataPath|]) && Some(p[|dataPath|]) in entries
  {
    if entries != [] {
      DirtyPathsIff(dataPath, entries[1..], p);
      assert entries == [entries[0]] + entries[1..];
      var shape := |p| == |dataPath| + 1 && p[..|dataPath|] == dataPath;
      if shape {
        assert p == dataPath + [p[|dataPath|]];
      }
      match entries[0]
      case Some(name) =>
        assert p == dataPath + [name] <==> shape && p[|dataPath|] == name;
      case None =>
    }
  }

  /**
   * `clean_dirty_state` on values: walk the listing, delete the dirty
   * entries, and stop at the first deletion that fails. An unreadable
   * listing entry is skipped; an unreadable directory is an error.
   */
  function CleanFrom(files: map<Path, FileEntry>, dataPath: Path, entries: seq<Option<string>>, removeFails: Path -> bool): (r: (map<Path, FileEntry>, Result<(), ManagerError>))
    ensures r.1.Err? ==> r.1.error == BadDataPath(dataPath)
    ensures r.1.Ok? <==> forall p :: p in DirtyPaths(dataPath, entries) ==> !removeFails(p)
    ensures r.1.Ok? ==> r.0 == files - DirtyPaths(dataPath, entries)
    ensures forall p :: p in r.0 ==> p in files && r.0[p] == files[p]
    ensures forall p :: p in files && p !in DirtyPaths(dataPath, entries) ==> p in r.0
  {
    if entries == [] then (files, Ok(()))
    else
      match entries[0]
      case None => CleanFrom(files, dataPath, entries[1..], removeFails)
      case Some(name) =>
        if !IsDirty(name) then CleanFrom(files, dataPath, entries[1..], removeFails)
        else
          var p := dataPath + [name];
          if removeFails(p) then (files, Err(BadDataPath(dataPath)))
          else
            var r := CleanFrom(files - {p}, dataPath, entries[1..], removeFails);
            assert r.1.Ok? ==> r.0 == files - DirtyPaths(dataPath, entries);
            r
  }

  /** The position of the first listed dirty entry whose deletion fails; the listing's length when none does. */
  function FailIndex(dataPath: Path, entries: seq<Option<string>>, removeFails: Path -> bool): (k: nat)
    ensures k <= |entries|
  {
    if entries == [] then 0
    else if entries[0].Some? && IsDirty(entries[0].value) && removeFails(dataPath + [entries[0].value]) then 0
    else 1 + FailIndex(dataPath, entries[1..], removeFails)
  }

  /**
   * The clean stops at the first deletion that fails: every dirty entry
   * listed before it is gone, nothing else is, and the clean succeeds
   * exactly when no deletion fails.
   */
  lemma {:induction false} CleanFromStopsAtFailure(files: map<Path, FileEntry>, dataPath: Path, entries: seq<Option<string>>, removeFails: Path -> bool)
    ensures var k := FailIndex(dataPath, entries, removeFails);
            var r := CleanFrom(files, dataPath, entries, removeFails);
            (r.1.Ok? <==> k == |entries|) &&
            r.0 == files - DirtyPaths(dataPath, entries[..k]) &&
            (k < |entries| ==> entries[k].Some? && IsDirty(entries[k].value) && removeFails(dataPath + [entries[k].value])) &&
            (forall p :: p in DirtyPaths(dataPath, entries[..k]) ==> !removeFails(p))
  {
    var k := FailIndex(dataPath, entries, removeFails);
    if entries == [] {
    } else if entries[0].Some? && IsDirty(entries[0].value) && removeFails(dataPath + [entries[0].value]) {
      assert entries[..k] == [];
    } else {
      var tail := entries[1..];
      var k' := FailIndex(dataPath, tail, removeFails);
      assert entries[..k][1..] == tail[..k'];
      assert entries[..k][0] == entries[0];
      var before := DirtyPaths(dataPath, tail[..k']);
      assert DirtyPaths(dataPath, entries[..k]) ==
        (if entries[0].Some? && IsDirty(entries[0].value) then {dataPath + [entries[0].value]} else {}) + before;
      if entries[0].Some? && IsDirty(entries[0].value) {
        var p := dataPath + [entries[0].value];
        CleanFromStopsAtFailure(files - {p}, dataPath, tail, removeFails);
        assert files - {p} - before == files - ({p} + before);
      } else {
        CleanFromStopsAtFailure(files, dataPath, tail, removeFails);
      }
    }
  }

  function Clean(files: map<Path, FileEntry>, statePath: Path, listing: Option<seq<Option<string>>>, removeFails: Path -> bool): (map<Path, FileEntry>, Result<(), ManagerError>)
  {
    match listing
    case None => (files, Err(BadDataPath(DataPath(statePath))))
    case Some(entries) => CleanFrom(files, DataPath(statePath), entries, removeFails)
  }

  /** A successful clean deletes exactly the listed data entries ending in ".tmp" or ".health". */
  lemma CleanRemovesExactlyDirty(files: map<Path, FileEntry>, dataPath: Path, entries: seq<Option<string>>, removeFails: Path -> bool, p: Path)
    requires CleanFrom(files, dataPath, entries, removeFails).1.Ok?
    requires p in files
    ensures p !in CleanFrom(files, dataPath, entries, removeFails).0 <==>
      |p| == |dataPath| + 1 && p[..|dataPath|] == dataPath && IsDirty(p[|dataPath|]) &&
      Some(p[|dataPath|]) in entries
  {
    DirtyPathsIff(dataPath, entries, p);
  }

  /**
   * `read_process_lock` on values: the first line parsed as a pid. A lock
   * that cannot be opened is an I/O error; anything else that does not
   * give a pid in range is a corrupt lock.
   */
  function ReadLock(files: map<Path, FileEntry>, path: Path): (r: Result<int, ManagerError>)
    ensures r.Ok? ==> PidMin <= r.value <= PidMax
    ensures r.Err? ==> r.error == ProcessLockCorrupt || r.error == ProcessLockIO(path)
    ensures r.Err? && r.error == ProcessLockIO(path) <==> path !in files || files[path].Unreadable?
    ensures r.Ok? <==>
              path in files && files[path].Readable? && Str.FirstLine(files[path].text).Some? &&
              Str.ParseSigned(Str.FirstLine(files[path].text).value).Some? &&
              PidMin <= Str.ParseSigned(Str.FirstLine(files[path].text).value).value <= PidMax
    ensures r.Ok? ==> Str.ParseSigned(Str.FirstLine(files[path].text).value) == Some(r.value)
  {
    if path !in files || files[path].Unreadable? then Err(ProcessLockIO(path))
    else if files[path].Undecodable? then Err(ProcessLockCorrupt)
    else
      match Str.FirstLine(files[path].text)
      case None => Err(ProcessLockCorrupt)
      case Some(line) =>
        match Str.ParseInRange(line, PidMin, PidMax)
        case Some(pid) => Ok(pid)
        case None => Err(ProcessLockCorrupt)
  }

  /** A lock whose first line is a pid in range, ended by "\n" or "\r\n", reads as that pid. */
  lemma ReadLockLine(files: map<Path, FileEntry>, path: Path, pid: int, ending: string, rest: string)
    requires PidMin <= pid <= PidMax && (ending == "\n" || ending == "\r\n")
    requires path in files && files[path] == Readable(Str.IntToString(pid) + ending + rest)
    ensures ReadLock(files, path) == Ok(pid)
  {
    Str.IntToStringNoBreaks(pid);
    Str.FirstLineTerminated(Str.IntToString(pid), ending, rest);
    Str.ParseIntToString(pid);
  }

  /** A '\r' that no '\n' follows stays on the line, so the lock is corrupt. */
  lemma ReadLockStrayCR(files: map<Path, FileEntry>, path: Path, pid: int)
    requires path in files && files[path] == Readable(Str.IntToString(pid) + "\r")
    ensures ReadLock(files, path) == Err(ProcessLockCorrupt)
  {
    Str.IntToStringNoBreaks(pid);
    var t := Str.IntToString(pid) + "\r";
    assert '\n' !in t by {
      assert forall k :: 0 <= k < |t| - 1 ==> t[k] == Str.IntToString(pid)[k];
    }
    Str.ParseStrayCR(Str.IntToString(pid));
  }

  /** `write_process_lock` on values: create-new fails when anything is at the path. */
  function WriteLock(files: map<Path, FileEntry>, path: Path, pid: int): (map<Path, FileEntry>, Result<(), ManagerError>)
  {
    if path in files then (files, Err(ProcessLockIO(path)))
    else (files[path := Readable(Str.IntToString(pid))], Ok(()))
  }

  /** `obtain_process_lock` on values. */
  function Obtain(files: map<Path, FileEntry>, path: Path, pid: int, alive: int -> bool): (map<Path, FileEntry>, Result<(), ManagerError>)
  {
    var first := WriteLock(files, path, pid);
    if first.1.Ok? then first
    else
      match ReadLock(files, path)
      case Ok(holder) =>
        if alive(holder) then (files, Err(ProcessLocked(holder)))
        else WriteLock(files - {path}, path, pid)
      case Err(e) =>
        if e == ProcessLockCorrupt then WriteLock(files - {path}, path, pid)
        else (files, Err(e))
  }

  /** The lock a Supervisor writes reads back as its own pid. */
  lemma WriteThenRead(files: map<Path, FileEntry>, path: Path, pid: int)
    requires path !in files && PidMin <= pid <= PidMax
    ensures WriteLock(files, path, pid).1.Ok?
    ensures ReadLock(WriteLock(files, path, pid).0, path) == Ok(pid)
  {
    var t := Str.IntToString(pid);
    var f := files[path := Readable(t)];
    assert WriteLock(files, path, pid) == (f, Ok(()));
    Str.ParseIntToString(pid);
    Str.IntToStringFirstLine(pid);
    assert Str.ParseInRange(t, PidMin, PidMax) == Some(pid);
    assert f[path].text == t;
  }

  /**
   * Obtaining the lock either leaves the Supervisor's pid in it, or fails
   * because a live Supervisor holds it, or fails on an unreadable lock;
   * no other path is touched.
   */
  lemma ObtainOutcomes(files: map<Path, FileEntry>, path: Path, pid: int, alive: int -> bool)
    requires PidMin <= pid <= PidMax
    ensures var r := Obtain(files, path, pid, alive);
      r.1.Ok? ==> path in r.0 && ReadLock(r.0, path) == Ok(pid)
    ensures var r := Obtain(files, path, pid, alive);
      forall q :: q != path ==> (q in r.0 <==> q in files) && (q in files ==> r.0[q] == files[q])
    ensures var r := Obtain(files, path, pid, alive);
      r.1.Err? && r.1.error.ProcessLocked? <==> ReadLock(files, path).Ok? && alive(ReadLock(files, path).value)
    ensures var r := Obtain(files, path, pid, alive);
      r.1.Err? && r.1.error.ProcessLocked? ==> r.1.error.pid == ReadLock(files, path).value && r.0 == files
    ensures var r := Obtain(files, path, pid, alive);
      r.1.Err? && !r.1.error.ProcessLocked? <==> path in files && files[path].Unreadable?
    ensures path !in files ==> Obtain(files, path, pid, alive).1.Ok?
  {
    if path !in files {
      WriteThenRead(files, path, pid);
    } else {
      WriteThenRead(files - {path}, path, pid);
    }
  }

  /** `Manager::is_running`: a readable lock whose pid is alive. */
  function IsRunning(files: map<Path, FileEntry>, fsRoot: Path, cfg: ManagerConfig, alive: int -> bool): (b: bool)
    ensures var lock := NewFsCfg(StatePathFrom(fsRoot, cfg)).procLockFile;
      b <==> ReadLock(files, lock).Ok? && alive(ReadLock(files, lock).value)
  {
    match ReadLock(files, NewFsCfg(StatePathFrom(fsRoot, cfg)).procLockFile)
    case Ok(pid) => alive(pid)
    case Err(e) => false
  }

  /** Once a Supervisor holds the lock and lives, `is_running` says so. */
  lemma ObtainThenRunning(files: map<Path, FileEntry>, fsRoot: Path, cfg: ManagerConfig, pid: int, alive: int -> bool)
    requires PidMin <= pid <= PidMax && alive(pid)
    requires Obtain(files, NewFsCfg(StatePathFrom(fsRoot, cfg)).procLockFile, pid, alive).1.Ok?
    ensures IsRunning(Obtain(files, NewFsCfg(StatePathFrom(fsRoot, cfg)).procLockFile, pid, alive).0, fsRoot, cfg, alive)
  {
    ObtainOutcomes(files, NewFsCfg(StatePathFrom(fsRoot, cfg)).procLockFile, pid, alive);
  }

  /** The part of the host filesystem the manager touches. */
  class FileSystem {
    var files: map<Path, FileEntry>

    constructor (files: map<Path, FileEntry>)
      ensures this.files == files
    {
      this.files := files;
    }

    /** `Manager::clean_dirty_state`, over a listing of the data directory. */
    method CleanDirtyState(statePath: Path, listing: Option<seq<Option<string>>>, removeFails: Path -> bool) returns (r: Result<(), ManagerError>)
      modifies this
      ensures (files, r) == Clean(old(files), statePath, listing, removeFails)
    {
      var dataPath := DataPath(statePath);
      if listing.None? {
        return Err(BadDataPath(dataPath));
      }
      var entries := listing.value;
      var i := 0;
      while i < |entries|
        invariant 0 <= i <= |entries|
        invariant CleanFrom(files, dataPath, entries[i..], removeFails) == CleanFrom(old(files), dataPath, entries, removeFails)
      {
        assert entries[i..][1..] == entries[i + 1..];
        if entries[i].Some? && IsDirty(entries[i].value) {
          var p := dataPath + [entries[i].value];
          if removeFails(p) {
            return Err(BadDataPath(dataPath));
          }
          files := files - {p};
        }
        i := i + 1;
      }
      r := Ok(());
    }

    function ReadProcessLock(path: Path): Result<int, ManagerError>
      reads this
    {
      ReadLock(files, path)
    }

    method WriteProcessLock(path: Path, pid: int) returns (r: Result<(), ManagerError>)
      modifies this
      ensures (files, r) == WriteLock(old(files), path, pid)
    {
      if path in files {
        return Err(ProcessLockIO(path));
      }
      files := files[path := Readable(Str.IntToString(pid))];
      r := Ok(());
    }

    /** `release_process_lock`: a failed removal is only logged. */
    method ReleaseProcessLock(path: Path)
      modifies this
      ensures files == old(files) - {path}
    {
      files := files - {path};
    }

    /** `obtain_process_lock`: create, or replace a dead or corrupt lock. */
    method ObtainProcessLock(path: Path, pid: int, alive: int -> bool) returns (r: Result<(), ManagerError>)
      modifies this
      ensures (files, r) == Obtain(old(files), path, pid, alive)
    {
      r := WriteProcessLock(path, pid);
      if r.Ok? {
        return;
      }
      var read := ReadProcessLock(path);
      match read {
        case Ok(holder) =>
          if alive(holder) {
            return Err(ProcessLocked(holder));
          }
          ReleaseProcessLock(path);
          r := WriteProcessLock(path, pid);
        case Err(e) =>
          if e == ProcessLockCorrupt {
            ReleaseProcessLock(path);
            r := WriteProcessLock(path, pid);
          } else {
            r := Err(e);
          }
      }
    }
  }

  /** `ProcessStatus`, with its elapsed time already formatted. */
  datatype ProcessStatus = ProcessStatus(elapsed: string, pid: Option<int>, state: PS.ProcessState)
  {
    function Text(): string
    {
      match pid
      case Some(p) => "state:" + state.Text() + ", time:" + elapsed + ", pid:" + Str.IntToString(p)
      case None => "state:" + state.Text() + ", time:" + elapsed
    }
  }

  /** The pid shows in the status text exactly when there is one. */
  lemma ProcessStatusText(s: ProcessStatus)
    ensures var base := "state:" + s.state.Text() + ", time:" + s.elapsed;
      |s.Text()| >= |base| && s.Text()[..|base|] == base &&
      (s.pid.None? <==> s.Text() == base) &&
      (s.pid.Some? ==> s.Text()[|base|..] == ", pid:" + Str.IntToString(s.pid.value))
  {
    var base := "state:" + s.state.Text() + ", time:" + s.elapsed;
    if s.pid.Some? {
      var t := s.Text();
      assert t == base + (", pid:" + Str.IntToString(s.pid.value));
      assert t[..|base|] == base;
    }
  }

  datatype ServiceStatus = ServiceStatus(pkgIdent: string, process: ProcessStatus, serviceGroup: string,
                                         startStyle: PS.StartStyle, composite: Option<string>)
  {
    function Text(): string
    {
      var comp := match composite case Some(c) => c case None => "standalone";
      pkgIdent + " (" + comp + "), " + process.Text() + ", group:" + serviceGroup + ", style:" + startStyle.Text()
    }
  }

  /** A service outside any composite shows as "standalone". */
  lemma ServiceStatusStandalone(s: ServiceStatus)
    requires s.composite.None?
    ensures var prefix := s.pkgIdent + " (standalone), ";
      |s.Text()| >= |prefix| && s.Text()[..|prefix|] == prefix
  {
    var prefix := s.pkgIdent + " (standalone), ";
    var head := s.pkgIdent + " (" + "standalone" + "), ";
    assert " (" + "standalone" + "), " == " (standalone), ";
    assert head == prefix;
    var rest := s.process.Text() + ", group:" + s.serviceGroup + ", style:" + s.startStyle.Text();
    assert s.Text() == head + rest;
    assert (head + rest)[..|head|] == head;
  }
}

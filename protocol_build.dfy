/**
 * The build scripts of the gossip layer and of the Supervisor protocol
 * crate, which hand every protocol definition in `protocols/` to the
 * protobuf compiler. Both scripts select the files the same way.
 *
 * The directory listing is an input, in the order the operating system
 * returns it; the compiler invocation is left out.
 */
module ProtocolBuild {
  import Str = Text

  /** The directory both scripts read and pass as the include path. */
  const ProtocolDir: string := "protocols"

  /** One entry of the listing: its file name and whether its metadata says regular file. */
  datatype DirEntry = DirEntry(name: string, isFile: bool)

  /** `entry.path()`: the entry's name under the listed directory. */
  function EntryPath(e: DirEntry): string
  {
    ProtocolDir + "/" + e.name
  }

  /** An entry is kept when its name does not start with '.' (editor temp files) and it is a regular file. */
  predicate Kept(e: DirEntry)
  {
    !Str.StartsWith(e.name, ".") && e.isFile
  }

  /** The paths of the kept entries, in listing order. */
  function KeptPaths(entries: seq<DirEntry>): seq<string>
  {
    if entries == [] then []
    else KeptPaths(entries[..|entries| - 1]) + (if Kept(entries[|entries| - 1]) then [EntryPath(entries[|entries| - 1])] else [])
  }

  /**
   * A path is in the result exactly when some kept entry has it, and
   * there are never more paths than entries.
   */
  lemma {:induction false} KeptPathsRule(entries: seq<DirEntry>, p: string)
    ensures p in KeptPaths(entries) <==> exists i :: 0 <= i < |entries| && Kept(entries[i]) && EntryPath(entries[i]) == p
    ensures |KeptPaths(entries)| <= |entries|
  {
    if entries != [] {
      var front := entries[..|entries| - 1];
      KeptPathsRule(front, p);
      if p in KeptPaths(front) {
        var i :| 0 <= i < |front| && Kept(front[i]) && EntryPath(front[i]) == p;
        assert entries[i] == front[i];
      }
      forall i | 0 <= i < |front| && Kept(entries[i]) && EntryPath(entries[i]) == p
        ensures p in KeptPaths(front)
      {
        assert front[i] == entries[i];
      }
    }
  }

  /** Keeping preserves the listing order: the result of a listing extended by more entries extends the result. */
  lemma {:induction false} KeptPathsAppend(entries: seq<DirEntry>, more: seq<DirEntry>)
    ensures KeptPaths(entries + more) == KeptPaths(entries) + KeptPaths(more)
    decreases |more|
  {
    if more == [] {
      assert entries + more == entries;
    } else {
      var front := more[..|more| - 1];
      assert (entries + more)[..|entries + more| - 1] == entries + front;
      KeptPathsAppend(entries, front);
    }
  }

  /** `protocol_files`, with its loop and the `continue` for hidden entries. */
  method ProtocolFiles(entries: seq<DirEntry>) returns (files: seq<string>)
    ensures files == KeptPaths(entries)
  {
    files := [];
    for i := 0 to |entries|
      invariant files == KeptPaths(entries[..i])
    {
      assert entries[..i + 1][..i] == entries[..i];
      var file := entries[i];
      if Str.StartsWith(file.name, ".") {
        continue;
      }
      if file.isFile {
        files := files + [EntryPath(file)];
      }
    }
    assert entries[..|entries|] == entries;
  }

  /** `protocol_includes`. */
  function ProtocolIncludes(): (r: seq<string>)
    ensures r == ["protocols"]
  {
    [ProtocolDir]
  }

  /** The scripts' own aim: vim swap files and directories are never compiled, proto files are. */
  lemma Examples()
    ensures KeptPaths([DirEntry(".swarm.proto.swp", true), DirEntry("swim.proto", true), DirEntry("sub", false)]) == ["protocols/swim.proto"]
  {
    var es := [DirEntry(".swarm.proto.swp", true), DirEntry("swim.proto", true), DirEntry("sub", false)];
    assert Str.StartsWith(es[0].name, ".");
    assert es[1].name[..1] == "s";
    assert !Str.StartsWith(es[1].name, ".");
    assert KeptPaths(es[..1]) == [] by {
      assert es[..1][..0] == [];
    }
    assert es[..2][..1] == es[..1] && es[..2][1] == es[1];
    assert Kept(es[1]) && EntryPath(es[1]) == "protocols/swim.proto";
    assert KeptPaths(es[..2]) == [] + [EntryPath(es[1])];
    assert es[..3][..2] == es[..2];
    assert es[..3] == es;
  }
}

/**
 * The script that creates one Builder project per core plan: given the
 * plans directory, the projects URL and an auth token, it walks the
 * directory and, for every sub-directory holding a `plan.sh`, sends one
 * authorized POST whose body is the rendered project template.
 *
 * The directory listing, the directory and file tests, the template
 * rendering and the server's responses are inputs; what the script
 * prints and sends is the log it returns.
 */
module PCreate {
  import Str = Text

  /** One thing the script does that is visible from outside. */
  datatype Event = Print(line: string) | Post(url: string, authorization: string, body: string)

  /** What the script learns from the file system and the server. */
  datatype World = World(
    isDir: string -> bool,
    exists_: string -> bool,
    render: string -> string,
    response: string -> string)

  const Usage: string := "Usage: pcreate <core-plans-dir> <projects-url> <auth-token>"

  /** `File.join(f, 'plan.sh')`. */
  function PlanPath(f: string): string
  {
    f + "/plan.sh"
  }

  /** `f.index(".") != 0 && File.directory?(f)`: a visible directory. */
  predicate Considered(f: string, w: World)
  {
    !Str.StartsWith(f, ".") && w.isDir(f)
  }

  predicate Qualifies(f: string, w: World)
  {
    Considered(f, w) && w.exists_(PlanPath(f))
  }

  /** The header value sent with every request, the bearer form of section 2.1 of RFC 6750. */
  function Bearer(token: string): string
  {
    "Bearer " + token
  }

  /** What one entry of the listing produces. */
  function EntryEvents(f: string, url: string, token: string, w: World): seq<Event>
  {
    if !Considered(f, w) then []
    else if w.exists_(PlanPath(f)) then
      [Print("Creating project for " + f), Post(url, Bearer(token), w.render(f)), Print("Response: " + w.response(f))]
    else [Print("WARNING: plan.sh not found at " + PlanPath(f) + " - skipping")]
  }

  /** What the walk over the listing produces, entry by entry. */
  function WalkEvents(entries: seq<string>, url: string, token: string, w: World): seq<Event>
  {
    if entries == [] then []
    else WalkEvents(entries[..|entries| - 1], url, token, w) + EntryEvents(entries[|entries| - 1], url, token, w)
  }

  /** The whole script: a wrong argument count prints the usage and does nothing else. */
  function ScriptEvents(args: seq<string>, entries: seq<string>, w: World): seq<Event>
  {
    if |args| != 3 then [Print(Usage)]
    else WalkEvents(entries, args[1], args[2], w)
  }

  /** The requests in a log, in order. */
  function Posts(log: seq<Event>): seq<Event>
  {
    if log == [] then []
    else Posts(log[..|log| - 1]) + (if log[|log| - 1].Post? then [log[|log| - 1]] else [])
  }

  /** The entries that get a project, in listing order. */
  function QualifyingEntries(entries: seq<string>, w: World): seq<string>
  {
    if entries == [] then []
    else QualifyingEntries(entries[..|entries| - 1], w) + (if Qualifies(entries[|entries| - 1], w) then [entries[|entries| - 1]] else [])
  }

  /** The request sent for a qualifying entry. */
  function RequestFor(f: string, url: string, token: string, w: World): Event
  {
    Post(url, Bearer(token), w.render(f))
  }

  function RequestsFor(fs: seq<string>, url: string, token: string, w: World): seq<Event>
  {
    if fs == [] then [] else RequestsFor(fs[..|fs| - 1], url, token, w) + [RequestFor(fs[|fs| - 1], url, token, w)]
  }

  lemma {:induction false} PostsAppend(a: seq<Event>, b: seq<Event>)
    ensures Posts(a + b) == Posts(a) + Posts(b)
    decreases |b|
  {
    if b == [] {
      assert a + b == a;
    } else {
      var front := b[..|b| - 1];
      assert (a + b)[..|a + b| - 1] == a + front;
      PostsAppend(a, front);
    }
  }

  lemma EntryPosts(f: string, url: string, token: string, w: World)
    ensures Posts(EntryEvents(f, url, token, w)) == if Qualifies(f, w) then [RequestFor(f, url, token, w)] else []
  {
    var es := EntryEvents(f, url, token, w);
    if Qualifies(f, w) {
      assert es[..2][..1] == es[..1] && es[..3] == es && es[..2] == es[..2];
      assert es[..1][..0] == [];
      assert Posts(es[..1]) == [];
      assert es[..2][1] == es[1];
      assert Posts(es[..2]) == [es[1]];
      assert es[..3][..2] == es[..2];
      assert Posts(es) == [es[1]];
    } else if Considered(f, w) {
      assert es[..0] == [];
    }
  }

  /**
   * Exactly one request per qualifying entry, in listing order, each to
   * the given URL with the bearer token and the rendered template; and
   * none at all when the argument count is wrong.
   */
  lemma {:induction false} ScriptPosts(args: seq<string>, entries: seq<string>, w: World)
    ensures |args| != 3 ==> ScriptEvents(args, entries, w) == [Print(Usage)] && Posts(ScriptEvents(args, entries, w)) == []
    ensures |args| == 3 ==> Posts(ScriptEvents(args, entries, w)) == RequestsFor(QualifyingEntries(entries, w), args[1], args[2], w)
  {
    if |args| != 3 {
      assert [Print(Usage)][..0] == [];
    } else {
      WalkPosts(entries, args[1], args[2], w);
    }
  }

  lemma {:induction false} WalkPosts(entries: seq<string>, url: string, token: string, w: World)
    ensures Posts(WalkEvents(entries, url, token, w)) == RequestsFor(QualifyingEntries(entries, w), url, token, w)
  {
    if entries != [] {
      var front := entries[..|entries| - 1];
      var last := entries[|entries| - 1];
      WalkPosts(front, url, token, w);
      PostsAppend(WalkEvents(front, url, token, w), EntryEvents(last, url, token, w));
      EntryPosts(last, url, token, w);
      if Qualifies(last, w) {
        var q := QualifyingEntries(front, w) + [last];
        assert q == QualifyingEntries(entries, w);
        assert q[..|q| - 1] == QualifyingEntries(front, w) && q[|q| - 1] == last;
        assert RequestsFor(q, url, token, w) == RequestsFor(QualifyingEntries(front, w), url, token, w) + [RequestFor(last, url, token, w)];
      } else {
        assert QualifyingEntries(entries, w) == QualifyingEntries(front, w);
      }
    }
  }

  /** The number of requests is the number of qualifying entries. */
  lemma {:induction false} RequestCount(fs: seq<string>, url: string, token: string, w: World)
    ensures |RequestsFor(fs, url, token, w)| == |fs|
  {
    if fs != [] {
      RequestCount(fs[..|fs| - 1], url, token, w);
    }
  }

  /** A visible directory without `plan.sh` only produces the warning naming the marker path. */
  lemma MissingPlanWarns(f: string, url: string, token: string, w: World)
    requires Considered(f, w) && !w.exists_(PlanPath(f))
    ensures EntryEvents(f, url, token, w) == [Print("WARNING: plan.sh not found at " + f + "/plan.sh - skipping")]
  {
    assert "WARNING: plan.sh not found at " + PlanPath(f) + " - skipping" == "WARNING: plan.sh not found at " + f + "/plan.sh - skipping";
  }

  /** The script, with its loop over the listing. */
  method Run(args: seq<string>, entries: seq<string>, w: World) returns (log: seq<Event>)
    ensures log == ScriptEvents(args, entries, w)
  {
    if |args| != 3 {
      return [Print(Usage)];
    }
    var url := args[1];
    var authToken := args[2];
    log := [];
    for i := 0 to |entries|
      invariant log == WalkEvents(entries[..i], url, authToken, w)
    {
      assert entries[..i + 1][..i] == entries[..i];
      var f := entries[i];
      if !Str.StartsWith(f, ".") && w.isDir(f) {
        var planPath := PlanPath(f);
        if w.exists_(planPath) {
          log := log + [Print("Creating project for " + f)];
          log := log + [Post(url, Bearer(authToken), w.render(f))];
          log := log + [Print("Response: " + w.response(f))];
        } else {
          log := log + [Print("WARNING: plan.sh not found at " + planPath + " - skipping")];
        }
      }
    }
    assert entries[..|entries|] == entries;
  }
}

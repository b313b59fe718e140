/** Slash-separated paths: path.Clean, the bundle's notion of a safe path, and joining. */
module Paths {
  import opened Slashes

  // ---------- path.Clean on segments

  /** Segments in order, "." and empty ones dropped, ".." taking back the segment before it. */
  function CleanParts(parts: seq<string>, out: seq<string>, rooted: bool): seq<string>
    decreases |parts|
  {
    if parts == [] then out
    else if parts[0] == "" || parts[0] == "." then CleanParts(parts[1..], out, rooted)
    else if parts[0] != ".." then CleanParts(parts[1..], out + [parts[0]], rooted)
    else if out != [] && out[|out| - 1] != ".." then CleanParts(parts[1..], out[..|out| - 1], rooted)
    else CleanParts(parts[1..], if rooted then out else out + [".."], rooted)
  }

  function Clean(path: string): string
  {
    if path == "" then "."
    else if path[0] == '/' then
      var out := CleanParts(Split(path), [], true);
      if out == [] then "/" else "/" + Join(out)
    else
      var out := CleanParts(Split(path), [], false);
      if out == [] then "." else Join(out)
  }

  predicate HasPrefix(s: string, prefix: string) { |prefix| <= |s| && s[..|prefix|] == prefix }

  predicate SafePath(path: string)
  {
    path != "" && path != "." && !HasPrefix(path, "/") && Free(path, '\\') && Clean(path) == path && !HasPrefix(path, "../")
  }

  /** path.Join of two non-empty elements. */
  function JoinPath(a: string, b: string): string { Clean(a + "/" + b) }

  // ---------- what a safe path is

  /** A segment that names a file or directory. */
  predicate Name(part: string) { part != "" && part != "." && part != ".." }

  predicate Names(parts: seq<string>) { forall i :: 0 <= i < |parts| ==> Name(parts[i]) }

  /** ".." only at the front. */
  predicate Normal(out: seq<string>)
  {
    && (forall i :: 0 <= i < |out| ==> out[i] != "" && out[i] != "." && Free(out[i], '/'))
    && (forall i :: 0 < i < |out| && out[i] == ".." ==> out[i - 1] == "..")
  }

  lemma {:induction false} CleanIsNormal(parts: seq<string>, out: seq<string>)
    requires Normal(out) && forall i :: 0 <= i < |parts| ==> Free(parts[i], '/')
    ensures Normal(CleanParts(parts, out, false))
    decreases |parts|
  {
    if parts != [] {
      var rest := parts[1..];
      if parts[0] == "" || parts[0] == "." {
        CleanIsNormal(rest, out);
      } else if parts[0] != ".." {
        CleanIsNormal(rest, out + [parts[0]]);
      } else if out != [] && out[|out| - 1] != ".." {
        CleanIsNormal(rest, out[..|out| - 1]);
      } else {
        CleanIsNormal(rest, out + [".."]);
      }
    }
  }

  lemma {:induction false} NamesAreClean(parts: seq<string>, out: seq<string>)
    requires Names(parts)
    ensures CleanParts(parts, out, false) == out + parts
    decreases |parts|
  {
    if parts != [] {
      NamesAreClean(parts[1..], out + [parts[0]]);
      assert out + [parts[0]] + parts[1..] == out + parts;
    }
  }

  /** In a normal list that does not begin with "..", there is none. */
  lemma {:induction false} NoDotsAfter(out: seq<string>, i: nat)
    requires Normal(out) && i < |out| && out[0] != ".."
    ensures out[i] != ".."
  {
    if i > 0 { NoDotsAfter(out, i - 1); }
  }

  lemma {:induction false} SplitStart(path: string)
    ensures path != "" && path[0] == '/' ==> Split(path)[0] == ""
    ensures HasPrefix(path, "../") ==> Split(path)[0] == ".."
    ensures path != "" ==> (path[0] == '/' || Split(path)[0] != "")
  {
    if HasPrefix(path, "../") {
      SplitFirst("..", path[3..]);
      assert path == ".." + "/" + path[3..];
    }
  }

  lemma {:induction false} DotsAlone()
    ensures Split("..") == [".."] && Split(".") == ["."] && Split("") == [""]
  {
    SplitFirst("..", "");
    SplitFirst(".", "");
  }

  lemma {:induction false} NamesAreSafe(path: string)
    requires Free(path, '\\') && Names(Split(path))
    ensures SafePath(path) && path != ".."
  {
    hide CleanParts;
    var parts := Split(path);
    DotsAlone();
    JoinSplit(path);
    SplitStart(path);
    NamesAreClean(parts, []);
    assert [] + parts == parts;
  }

  lemma {:induction false} SafeAreNames(path: string)
    requires SafePath(path) && path != ".."
    ensures Names(Split(path))
  {
    hide CleanParts, Normal;
    var parts := Split(path);
    JoinSplit(path);
    NothingIsNormal();
    CleanIsNormal(parts, []);
    var out := CleanParts(parts, [], false);
    NormalParts(out);
    SplitJoin(out);
    if out[0] == ".." { DotsFirst(out); }
  }

  lemma {:induction false} NothingIsNormal()
    ensures Normal([])
  {
  }

  lemma {:induction false} NormalParts(out: seq<string>)
    requires Normal(out)
    ensures forall i :: 0 <= i < |out| ==> Free(out[i], '/')
    ensures out != [] && out[0] != ".." ==> Names(out)
  {
    if out != [] && out[0] != ".." {
      forall i | 0 <= i < |out| ensures Name(out[i]) { NoDotsAfter(out, i); }
    }
  }

  lemma {:induction false} DotsAreSafe()
    ensures SafePath("..")
  {
    DotsAlone();
    assert [".."][1..] == [] && [] + [".."] == [".."];
    assert CleanParts([".."], [], false) == [".."];
  }

  /** Apart from "..", a path is safe exactly when it has no backslash and every segment names something. */
  lemma {:induction false} SafePathIff(path: string)
    ensures SafePath(path) <==> Free(path, '\\') && (path == ".." || Names(Split(path)))
  {
    hide Clean, Names;
    DotsAreSafe();
    if Free(path, '\\') && Names(Split(path)) { NamesAreSafe(path); }
    if SafePath(path) && path != ".." { SafeAreNames(path); }
  }

  lemma {:induction false} DotsFirst(out: seq<string>)
    requires |out| >= 1 && out[0] == ".."
    ensures Join(out) == ".." || HasPrefix(Join(out), "../")
  {
    if |out| > 1 { assert Join(out) == ".." + "/" + Join(out[1..]); }
  }

  lemma {:induction false} SplitStep(s: string)
    requires s != ""
    ensures Split(s) == if s[0] == '/' then [""] + Split(s[1..]) else [[s[0]] + Split(s[1..])[0]] + Split(s[1..])[1..]
  {
  }

  lemma {:induction false} SplitConcat(a: string, b: string)
    ensures Split(a + "/" + b) == Split(a) + Split(b)
    decreases |a|
  {
    hide Split;
    var whole := a + "/" + b;
    SplitStep(whole);
    if a == "" {
      DotsAlone();
      assert whole[1..] == b;
    } else {
      SplitStep(a);
      SplitConcat(a[1..], b);
      assert whole[1..] == a[1..] + "/" + b;
    }
  }

  /** A safe path below a safe directory is safe, and joining them adds the slash and nothing else. */
  lemma {:induction false} SafeBelow(dir: string, name: string)
    requires SafePath(dir) && SafePath(name) && dir != ".." && name != ".."
    ensures JoinPath(dir, name) == dir + "/" + name && SafePath(dir + "/" + name)
  {
    hide SafePath;
    SafePathIff(dir);
    SafePathIff(name);
    SplitConcat(dir, name);
    var path := dir + "/" + name;
    assert Names(Split(path));
    assert Free(path, '\\');
    SafePathIff(path);
    DotsAlone();
    CleanSafe(path);
  }

  lemma {:induction false} CleanSafe(path: string)
    requires SafePath(path)
    ensures Clean(path) == path
  {
  }
}

/**
 * Destination handling of the `new` command: resolving the destination
 * argument against the working directory, appending the project name unless
 * the destination already ends in it, and probing whether a directory is
 * non-empty.  `filepath.Clean`, `Base`, `Join` and `Abs` are modelled for
 * Unix paths; the working directory is an input (it is read from the process).
 */
module ValidatePath {
  import opened Wrappers
  import opened Text

  // --------------------------------------------------------------- Clean

  /** A path element that cleaning keeps as it is. */
  predicate IsNormalSegment(s: string) {
    s != "" && s != "." && s != ".." && '/' !in s
  }

  predicate AllNormal(segs: seq<string>) {
    forall i | 0 <= i < |segs| :: IsNormalSegment(segs[i])
  }

  /** One element of the lexical clean-up: drop empty and "." elements, let
      ".." cancel the previous real element, drop ".." at the root of a rooted
      path and keep it otherwise. */
  function CleanStep(acc: seq<string>, seg: string, rooted: bool): seq<string> {
    if seg == "" || seg == "." then acc
    else if seg == ".." then
      if |acc| > 0 && acc[|acc| - 1] != ".." then acc[..|acc| - 1]
      else if rooted then acc
      else acc + [".."]
    else acc + [seg]
  }

  function CleanFrom(acc: seq<string>, segs: seq<string>, rooted: bool): seq<string>
    decreases |segs|
  {
    if segs == [] then acc else CleanFrom(CleanStep(acc, segs[0], rooted), segs[1..], rooted)
  }

  predicate IsRooted(p: string) {
    |p| > 0 && p[0] == '/'
  }

  /** The elements a cleaned path is made of. */
  function CleanSegments(p: string): seq<string> {
    CleanFrom([], Split(p, '/'), IsRooted(p))
  }

  /** filepath.Clean on Unix paths. */
  function Clean(p: string): (r: string)
    ensures IsRooted(p) ==> r == "/" + Join(CleanSegments(p), "/")
  {
    if p == "" then "."
    else
      var out := CleanSegments(p);
      if IsRooted(p) then "/" + Join(out, "/")
      else if out == [] then "."
      else Join(out, "/")
  }

  lemma {:induction false} CleanFromSnoc(acc: seq<string>, segs: seq<string>, x: string, rooted: bool)
    ensures CleanFrom(acc, segs + [x], rooted) == CleanStep(CleanFrom(acc, segs, rooted), x, rooted)
    decreases |segs|
  {
    if segs == [] {
      assert [] + [x] == [x];
    } else {
      assert (segs + [x])[1..] == segs[1..] + [x];
      CleanFromSnoc(CleanStep(acc, segs[0], rooted), segs[1..], x, rooted);
    }
  }

  /** Normal elements pass through the clean-up unchanged. */
  lemma {:induction false} CleanFromNormal(acc: seq<string>, segs: seq<string>, rooted: bool)
    requires AllNormal(segs)
    ensures CleanFrom(acc, segs, rooted) == acc + segs
    decreases |segs|
  {
    if segs != [] {
      CleanFromNormal(acc + [segs[0]], segs[1..], rooted);
      assert acc + [segs[0]] + segs[1..] == acc + segs;
    }
  }

  /** Cleaning a rooted path leaves only normal elements. */
  lemma {:induction false} CleanFromRootedIsNormal(acc: seq<string>, segs: seq<string>)
    requires AllNormal(acc)
    requires forall i | 0 <= i < |segs| :: '/' !in segs[i]
    ensures AllNormal(CleanFrom(acc, segs, true))
    decreases |segs|
  {
    if segs != [] {
      CleanFromRootedIsNormal(CleanStep(acc, segs[0], true), segs[1..]);
    }
  }

  lemma {:induction false} CleanSegmentsRootedNormal(p: string)
    requires IsRooted(p)
    ensures AllNormal(CleanSegments(p))
  {
    SplitAvoidsSep(p, '/');
    CleanFromRootedIsNormal([], Split(p, '/'));
  }

  /** The rooted path spelled by normal elements splits back into them. */
  lemma {:induction false} SplitRootedJoin(out: seq<string>)
    requires AllNormal(out)
    ensures Split("/" + Join(out, "/"), '/') == [""] + (if out == [] then [""] else out)
  {
    var j := Join(out, "/");
    SplitConcat("", j, '/');
    assert "" + ['/'] + j == "/" + j;
    if out == [] {
      assert Split("", '/') == [""];
    } else {
      SplitJoin(out, '/');
    }
  }

  /** Cleaning a clean rooted path changes nothing. */
  lemma {:induction false} CleanRootedIdempotent(p: string)
    requires IsRooted(p)
    ensures Clean(Clean(p)) == Clean(p)
  {
    var out := CleanSegments(p);
    CleanSegmentsRootedNormal(p);
    var c := Clean(p);
    SplitRootedJoin(out);
    assert IsRooted(c);
    var segs := [""] + (if out == [] then [""] else out);
    assert CleanFrom([], segs, true) == CleanFrom([], segs[1..], true);
    if out == [] {
      assert CleanSegments(c) == [];
    } else {
      CleanFromNormal([], out, true);
      assert segs[1..] == out;
      assert CleanSegments(c) == out;
    }
  }

  // ---------------------------------------------------------- Base, Join

  function TrimTrailingSlashes(p: string): (r: string)
    ensures |r| <= |p| && r == p[..|r|]
    ensures r == "" || r[|r| - 1] != '/'
  {
    if |p| > 0 && p[|p| - 1] == '/' then TrimTrailingSlashes(p[..|p| - 1]) else p
  }

  /** The bytes after the last '/'. */
  function AfterLastSlash(p: string): (r: string)
    ensures '/' !in r && |r| <= |p| && r == p[|p| - |r|..]
    ensures |r| < |p| ==> p[|p| - |r| - 1] == '/'
  {
    if p == "" || p[|p| - 1] == '/' then ""
    else
      var r := AfterLastSlash(p[..|p| - 1]);
      assert p[..|p| - 1][|p| - 1 - |r|..] + [p[|p| - 1]] == p[|p| - 1 - |r|..];
      r + [p[|p| - 1]]
  }

  /** filepath.Base: the last element, "." for "" and "/" for a run of slashes. */
  function Base(p: string): (r: string)
    ensures r != ""
  {
    if p == "" then "."
    else
      var q := TrimTrailingSlashes(p);
      if q == "" then "/" else AfterLastSlash(q)
  }

  lemma {:induction false} AfterLastSlashOfName(prefix: string, n: string)
    requires '/' !in n
    ensures AfterLastSlash(prefix + "/" + n) == n
    decreases |n|
  {
    var p := prefix + "/" + n;
    if n == "" {
      assert p[|p| - 1] == '/';
    } else {
      var m := n[..|n| - 1];
      assert p[..|p| - 1] == prefix + "/" + m;
      assert '/' !in m by { assert forall i | 0 <= i < |m| :: m[i] == n[i]; }
      AfterLastSlashOfName(prefix, m);
      assert m + [n[|n| - 1]] == n;
    }
  }

  /** The last element of `prefix/n` is `n` when `n` is one non-empty element. */
  lemma {:induction false} BaseOfName(prefix: string, n: string)
    requires n != "" && '/' !in n
    ensures Base(prefix + "/" + n) == n
  {
    var p := prefix + "/" + n;
    assert p[|p| - 1] == n[|n| - 1];
    AfterLastSlashOfName(prefix, n);
  }

  /** filepath.Join of two elements: empty elements are ignored and the
      result is cleaned. */
  function Join2(a: string, b: string): string {
    if a == "" && b == "" then ""
    else if a == "" then Clean(b)
    else if b == "" then Clean(a)
    else Clean(a + "/" + b)
  }

  /** filepath.Abs: a rooted path is cleaned, any other is joined onto the
      working directory, whose lookup may fail. */
  function Abs(p: string, cwd: Result<string, string>): (r: Result<string, string>)
    ensures IsRooted(p) ==> r == Success(Clean(p))
    ensures !IsRooted(p) && cwd.Failure? ==> r == Failure(cwd.error)
  {
    if IsRooted(p) then Success(Clean(p))
    else if cwd.Failure? then Failure(cwd.error)
    else Success(Join2(cwd.value, p))
  }

  // ----------------------------------------------------------- resolution

  /** validate.ResolveDestination: "" means the working directory as it is;
      anything else is made absolute. */
  function ResolveDestination(arg: string, cwd: Result<string, string>): (r: Result<string, string>)
    ensures arg == "" ==> r == cwd
    ensures cwd.Success? && IsRooted(cwd.value) && r.Success? ==> IsRooted(r.value)
    ensures IsRooted(arg) ==> r == Success(Clean(arg))
  {
    if arg == "" then cwd else Abs(arg, cwd)
  }

  /** validate.ResolveProjectDestination: clean the resolved base and append
      the project name unless the base already ends in it. */
  function ResolveProjectDestination(baseArg: string, projectName: string, cwd: Result<string, string>)
    : (r: Result<string, string>)
    ensures ResolveDestination(baseArg, cwd).Failure? ==> r == ResolveDestination(baseArg, cwd)
  {
    var base :- ResolveDestination(baseArg, cwd);
    var b := Clean(base);
    if Base(b) == projectName then Success(b) else Success(Join2(b, projectName))
  }

  /** The working directory as the process reports it is absolute. */
  predicate CwdAbsolute(cwd: Result<string, string>) {
    cwd.Success? ==> IsRooted(cwd.value)
  }

  /** A resolved destination is a clean rooted path. */
  lemma {:induction false} ResolvedIsCleanRooted(baseArg: string, projectName: string, cwd: Result<string, string>)
    requires CwdAbsolute(cwd) && projectName != ""
    requires ResolveProjectDestination(baseArg, projectName, cwd).Success?
    ensures var d := ResolveProjectDestination(baseArg, projectName, cwd).value;
            IsRooted(d) && Clean(d) == d
  {
    var base := ResolveDestination(baseArg, cwd).value;
    assert IsRooted(base) by {
      if baseArg != "" && !IsRooted(baseArg) {
        assert base == Clean(cwd.value + "/" + baseArg);
      }
    }
    var b := Clean(base);
    CleanRootedIdempotent(base);
    if Base(b) != projectName {
      CleanRootedIdempotent(b + "/" + projectName);
    }
  }

  /** Appending one real element to a rooted path and cleaning puts that
      element last. */
  lemma {:induction false} CleanAppend(b: string, n: string)
    requires IsRooted(b) && IsNormalSegment(n)
    ensures CleanSegments(b + "/" + n) == CleanSegments(b) + [n]
    ensures Base(Clean(b + "/" + n)) == n
  {
    var p := b + "/" + n;
    var xs := Split(b, '/');
    assert Split(p, '/') == xs + [n] by {
      SplitConcat(b, n, '/');
      SplitNoSep(n, '/');
      assert b + ['/'] + n == p;
    }
    var out := CleanFrom([], xs, true);
    assert IsRooted(p);
    assert CleanSegments(p) == out + [n] by {
      CleanFromSnoc([], xs, n, true);
    }
    var j := Join(out + [n], "/");
    assert Clean(p) == "/" + j;
    JoinSnoc(out, n, "/");
    if out == [] {
      assert "/" + j == "" + "/" + n;
      BaseOfName("", n);
    } else {
      assert "/" + j == ("/" + Join(out, "/")) + "/" + n;
      BaseOfName("/" + Join(out, "/"), n);
    }
  }

  /** For a project name that is one real element, the resolved destination
      always ends in that name. */
  lemma {:induction false} ResolvedEndsInProjectName(baseArg: string, projectName: string, cwd: Result<string, string>)
    requires CwdAbsolute(cwd)
    requires IsNormalSegment(projectName)
    requires ResolveProjectDestination(baseArg, projectName, cwd).Success?
    ensures Base(ResolveProjectDestination(baseArg, projectName, cwd).value) == projectName
  {
    var base := ResolveDestination(baseArg, cwd).value;
    var b := Clean(base);
    if Base(b) != projectName {
      assert IsRooted(base) by {
        if baseArg != "" && !IsRooted(baseArg) {
          assert base == Clean(cwd.value + "/" + baseArg);
        }
      }
      CleanAppend(b, projectName);
    }
  }

  lemma {:induction false} JoinSnoc(xs: seq<string>, x: string, sep: string)
    ensures xs != [] ==> Join(xs + [x], sep) == Join(xs, sep) + sep + x
    ensures xs == [] ==> Join(xs + [x], sep) == x
    decreases |xs|
  {
    if |xs| == 1 {
      assert xs + [x] == [xs[0], x];
      assert [xs[0], x][1..] == [x];
    } else if |xs| > 1 {
      JoinSnoc(xs[1..], x, sep);
      assert (xs + [x])[1..] == xs[1..] + [x];
    } else {
      assert xs + [x] == [x];
    }
  }

  /** Resolving a resolved destination again with the same project name
      gives it back. */
  lemma {:induction false} ResolveProjectDestinationIdempotent(baseArg: string, projectName: string,
                                                               cwd: Result<string, string>)
    requires CwdAbsolute(cwd)
    requires IsNormalSegment(projectName)
    requires ResolveProjectDestination(baseArg, projectName, cwd).Success?
    ensures var d := ResolveProjectDestination(baseArg, projectName, cwd).value;
            ResolveProjectDestination(d, projectName, cwd) == Success(d)
  {
    var d := ResolveProjectDestination(baseArg, projectName, cwd).value;
    ResolvedIsCleanRooted(baseArg, projectName, cwd);
    ResolvedEndsInProjectName(baseArg, projectName, cwd);
    assert ResolveDestination(d, cwd) == Success(d);
  }

  /** The rooted path spelled by normal elements is clean, and its last
      element is its base. */
  lemma {:induction false} SpelledPathIsClean(out: seq<string>)
    requires AllNormal(out)
    ensures Clean("/" + Join(out, "/")) == "/" + Join(out, "/")
    ensures CleanSegments("/" + Join(out, "/")) == out
    ensures out != [] ==> Base("/" + Join(out, "/")) == out[|out| - 1]
  {
    var d := "/" + Join(out, "/");
    assert IsRooted(d);
    assert CleanSegments(d) == out by {
      SplitRootedJoin(out);
      var segs := [""] + (if out == [] then [""] else out);
      assert CleanFrom([], segs, true) == CleanFrom([], segs[1..], true);
      if out != [] {
        CleanFromNormal([], out, true);
        assert segs[1..] == out;
      }
    }
    if out != [] {
      var init, last := out[..|out| - 1], out[|out| - 1];
      assert init + [last] == out;
      JoinSnoc(init, last, "/");
      if init == [] {
        assert d == "" + "/" + last;
        BaseOfName("", last);
      } else {
        assert d == ("/" + Join(init, "/")) + "/" + last;
        BaseOfName("/" + Join(init, "/"), last);
      }
    }
  }

  /** The name ".." passes the project-name validator, yet resolving a
      destination with it walks one level up each time instead of ending in
      the project name, so the resolution is not idempotent for it. */
  lemma {:induction false} DotDotWalksUp(out: seq<string>, cwd: Result<string, string>)
    requires AllNormal(out) && out != []
    ensures ResolveProjectDestination("/" + Join(out, "/"), "..", cwd)
            == Success("/" + Join(out[..|out| - 1], "/"))
  {
    var d := "/" + Join(out, "/");
    SpelledPathIsClean(out);
    assert ResolveDestination(d, cwd) == Success(d);
    assert Base(d) != "..";
    var p := d + "/" + "..";
    var xs := Split(d, '/');
    SplitConcat(d, "..", '/');
    SplitNoSep("..", '/');
    assert d + ['/'] + ".." == p;
    assert IsRooted(p);
    CleanFromSnoc([], xs, "..", true);
    assert CleanSegments(p) == out[..|out| - 1];
  }

  // ------------------------------------------------------------ directory

  /** What `os.Stat` and `os.ReadDir` report for a destination. */
  datatype DirProbe =
    | Missing                              // Stat fails with "does not exist"
    | StatFailed(statError: string)        // Stat fails otherwise
    | NotDirectory                         // exists, is not a directory
    | Directory(entries: Result<nat, string>)  // ReadDir's entry count or error

  const NotADirectoryMessage := "destination exists and is not a directory"

  /** validate.IsNonEmptyDir. */
  function IsNonEmptyDir(probe: DirProbe): (r: Result<bool, string>)
    ensures r == Success(true) <==> probe.Directory? && probe.entries.Success? && probe.entries.value > 0
    ensures r == Success(false) <==>
              probe.Missing? || (probe.Directory? && probe.entries == Success(0))
    ensures probe.NotDirectory? ==> r == Failure(NotADirectoryMessage)
  {
    match probe
    case Missing => Success(false)
    case StatFailed(e) => Failure(e)
    case NotDirectory => Failure(NotADirectoryMessage)
    case Directory(entries) =>
      if entries.Failure? then Failure(entries.error) else Success(entries.value > 0)
  }
}

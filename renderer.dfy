/**
 * Rendering a template tree into the destination.  The source tree is a
 * map from slash-separated relative paths to directories and files; the
 * walk is the order `fs.WalkDir` visits it in (parents before children),
 * starting with the root ".".  Each visited entry is skipped, created as a
 * directory, or written as a file at its path with one ".tmpl" suffix
 * removed, holding the transformed (or copied) content.
 */
module Renderer {
  import opened Wrappers
  import opened Text
  import opened ValidatePath
  import opened FileTree

  const TemplateSuffix := ".tmpl"
  const EnvExamplePrefix := ".env.example"
  const ReadError := "read error"

  // ------------------------------------------------------------- naming

  /** stripTemplateSuffix: one trailing ".tmpl" removed. */
  function StripTemplateSuffix(path: string): (r: string)
    ensures HasSuffix(path, TemplateSuffix) ==> r + TemplateSuffix == path
    ensures !HasSuffix(path, TemplateSuffix) ==> r == path
  {
    if HasSuffix(path, TemplateSuffix) then TrimSuffix(path, TemplateSuffix) else path
  }

  /** Only one suffix goes: "a.tmpl.tmpl" becomes "a.tmpl", so stripping
      twice differs from stripping once. */
  lemma {:induction false} StripOnce(p: string)
    ensures StripTemplateSuffix(p + TemplateSuffix + TemplateSuffix) == p + TemplateSuffix
    ensures StripTemplateSuffix(StripTemplateSuffix(p + TemplateSuffix + TemplateSuffix)) == p
  {
    var q := p + TemplateSuffix;
    assert HasSuffix(q + TemplateSuffix, TemplateSuffix) by {
      assert (q + TemplateSuffix)[|q + TemplateSuffix| - |TemplateSuffix|..] == TemplateSuffix;
    }
    assert HasSuffix(q, TemplateSuffix) by {
      assert q[|q| - |TemplateSuffix|..] == TemplateSuffix;
    }
  }

  /** A template "x.tmpl" and a plain "x" land on the same output path. */
  lemma {:induction false} StripCollides(p: string)
    requires !HasSuffix(p, TemplateSuffix)
    ensures StripTemplateSuffix(p + TemplateSuffix) == StripTemplateSuffix(p) == p
  {
    assert (p + TemplateSuffix)[|p + TemplateSuffix| - |TemplateSuffix|..] == TemplateSuffix;
  }

  // ------------------------------------------------------------- skipping

  /** DefaultSkip over the ignore globs, with `matches(pattern, path)`
      standing for filepath.Match: a path is skipped when some glob, with
      every "**\/" deleted, matches the whole path, unless the path's base
      name starts with ".env.example". */
  function DefaultSkip(globs: seq<string>, matches: (string, string) -> bool, path: string): (r: bool)
    ensures r <==> !HasPrefix(Base(path), EnvExamplePrefix)
                   && exists i | 0 <= i < |globs| :: matches(ReplaceAll(globs[i], "**/", ""), path)
  {
    if globs == [] then false
    else if matches(ReplaceAll(globs[0], "**/", ""), path) && !HasPrefix(Base(path), EnvExamplePrefix) then true
    else
      var r := DefaultSkip(globs[1..], matches, path);
      assert forall i | 1 <= i < |globs| :: globs[i] == globs[1..][i - 1];
      assert (exists i | 0 <= i < |globs[1..]| :: matches(ReplaceAll(globs[1..][i], "**/", ""), path))
             ==> exists i | 0 <= i < |globs| :: matches(ReplaceAll(globs[i], "**/", ""), path);
      r
  }

  // ------------------------------------------------------------- the walk

  /** The source tree and the walk's parameters. */
  datatype RenderInput = RenderInput(
    source: map<string, Node>,
    unreadable: set<string>,                                  // entries whose read fails
    skip: Option<string -> bool>,
    transform: Option<(string, string) -> Result<string, string>>)

  /** What the walk carries between entries: the destination and the
      directories it was told to skip. */
  datatype Walker = Walker(nodes: map<string, Node>, present: bool, pruned: set<string>)

  datatype StepResult = Continue(w: Walker) | Abort(error: string, w: Walker)

  predicate WalkOf(walk: seq<string>, src: RenderInput) {
    forall i | 0 <= i < |walk| :: walk[i] == "." || walk[i] in src.source
  }

  /** The entry lies below a directory whose subtree was skipped. */
  predicate Pruned(pruned: set<string>, path: string) {
    exists d | d in pruned :: HasPrefix(path, d + "/")
  }

  predicate Skipped(src: RenderInput, path: string) {
    src.skip.Some? && src.skip.value(path)
  }

  /** The content written for a file: the transform's result, or the
      source bytes when there is no transform. */
  function Content(src: RenderInput, path: string): Result<string, string>
    requires path in src.source && src.source[path].File?
  {
    if src.transform.None? then Success(src.source[path].data)
    else src.transform.value(path, src.source[path].data)
  }

  /** One call of the walk function. */
  function Visit(w: Walker, path: string, src: RenderInput): StepResult
    requires path == "." || path in src.source
  {
    if path == "." || Pruned(w.pruned, path) then Continue(w)
    else if Skipped(src, path) then
      if src.source[path].Dir? then Continue(w.(pruned := w.pruned + {path})) else Continue(w)
    else
      var out := StripTemplateSuffix(path);
      if src.source[path].Dir? then
        if MkdirBlocked(w.nodes, out) then Abort(NotADirectoryError, w)
        else
          var w1 := w.(nodes := WithDirs(w.nodes, out), present := true);
          if path in src.unreadable then Abort(ReadError, w1) else Continue(w1)
      else
        var parent := Parent(out);
        if MkdirBlocked(w.nodes, parent) then Abort(NotADirectoryError, w)
        else
          var w1 := w.(nodes := WithDirs(w.nodes, parent), present := true);
          if path in src.unreadable then Abort(ReadError, w1)
          else if WriteBlocked(w1.nodes, out) then Abort(IsADirectoryError, w1)
          else
            var c := Content(src, path);
            if c.Failure? then Abort(c.error, w1.(nodes := WithFile(w1.nodes, out, "", FileMode)))
            else Continue(w1.(nodes := WithFile(w1.nodes, out, c.value, FileMode)))
  }

  /** The walk over `walk`, stopping at the first error. */
  function RenderWalk(w: Walker, walk: seq<string>, src: RenderInput): StepResult
    requires WalkOf(walk, src)
    decreases |walk|
  {
    if walk == [] then Continue(w)
    else
      match RenderWalk(w, walk[..|walk| - 1], src)
      case Abort(e, w1) => Abort(e, w1)
      case Continue(w1) => Visit(w1, walk[|walk| - 1], src)
  }

  /** scaffold.RenderFS. */
  method RenderFS(disk: Disk, walk: seq<string>, src: RenderInput) returns (r: Outcome<string>)
    requires WalkOf(walk, src)
    modifies disk
    ensures var res := RenderWalk(Walker(old(disk.nodes), old(disk.present), {}), walk, src);
            disk.nodes == res.w.nodes && disk.present == res.w.present
            && (r.Pass? <==> res.Continue?) && (r.Fail? ==> r.error == res.error)
  {
    ghost var start := Walker(disk.nodes, disk.present, {});
    var pruned: set<string> := {};
    var i := 0;
    while i < |walk|
      invariant 0 <= i <= |walk|
      invariant RenderWalk(start, walk[..i], src) == Continue(Walker(disk.nodes, disk.present, pruned))
    {
      assert walk[..i + 1][..i] == walk[..i];
      var res;
      res, pruned := VisitEntry(disk, pruned, walk[i], src);
      if res.Fail? {
        assert walk[..i + 1] == walk[..|walk|][..i + 1];
        AbortIsFinal(start, walk, i + 1, src);
        return res;
      }
      i := i + 1;
    }
    assert walk[..i] == walk;
    return Pass;
  }

  /** The walk function on one entry, acting on the destination. */
  method VisitEntry(disk: Disk, pruned: set<string>, path: string, src: RenderInput)
    returns (r: Outcome<string>, pruned': set<string>)
    requires path == "." || path in src.source
    modifies disk
    ensures var res := Visit(Walker(old(disk.nodes), old(disk.present), pruned), path, src);
            disk.nodes == res.w.nodes && disk.present == res.w.present && pruned' == res.w.pruned
            && (r.Pass? <==> res.Continue?) && (r.Fail? ==> r.error == res.error)
  {
    pruned' := pruned;
    if path == "." || exists d | d in pruned :: HasPrefix(path, d + "/") {
      return Pass, pruned;
    }
    if src.skip.Some? && src.skip.value(path) {
      if src.source[path].Dir? {
        pruned' := pruned + {path};
      }
      return Pass, pruned';
    }
    var out := StripTemplateSuffix(path);
    if src.source[path].Dir? {
      r := disk.MkdirAll(out);
      if r.Pass? && path in src.unreadable {
        r := Fail(ReadError);
      }
      return;
    }
    r := disk.MkdirAll(Parent(out));
    if r.Fail? {
      return;
    }
    if path in src.unreadable {
      return Fail(ReadError), pruned;
    }
    r := disk.WriteFile(out, "", FileMode);
    if r.Fail? {
      return;
    }
    var data := src.source[path].data;
    if src.transform.Some? {
      var c := src.transform.value(path, data);
      if c.Failure? {
        return Fail(c.error), pruned;
      }
      data := c.value;
    }
    r := disk.WriteFile(out, data, FileMode);
    WithFileTwice(WithDirs(old(disk.nodes), Parent(out)), out, "", data, FileMode);
  }

  // ------------------------------------------------------------- properties

  /** After an error nothing further happens: the walk's result is the
      first error and the destination as it was then. */
  lemma {:induction false} AbortIsFinal(w: Walker, walk: seq<string>, j: nat, src: RenderInput)
    requires WalkOf(walk, src) && j <= |walk|
    requires RenderWalk(w, walk[..j], src).Abort?
    ensures RenderWalk(w, walk, src) == RenderWalk(w, walk[..j], src)
    decreases |walk|
  {
    if j < |walk| {
      assert walk[..|walk| - 1][..j] == walk[..j];
      AbortIsFinal(w, walk[..|walk| - 1], j, src);
    } else {
      assert walk[..j] == walk;
    }
  }

  /** The root and the entries below a skipped directory change nothing. */
  lemma {:induction false} RootAndPrunedInert(w: Walker, path: string, d: string, src: RenderInput)
    requires path == "." || path in src.source
    requires path == "." || (d in w.pruned && HasPrefix(path, d + "/"))
    ensures Visit(w, path, src) == Continue(w)
  {
  }

  /** The destination paths an entry may touch: its output path and the
      directories above it. */
  function Touched(walk: seq<string>): set<string> {
    set i, k | 0 <= i < |walk| && walk[i] != "." && k in Chain(StripTemplateSuffix(walk[i])) :: k
  }

  lemma {:induction false} TouchedCovers(walk: seq<string>, i: nat)
    requires i < |walk| && walk[i] != "."
    ensures Chain(StripTemplateSuffix(walk[i])) <= Touched(walk)
  {
  }

  /** One entry leaves every other destination path as it was. */
  lemma {:induction false} VisitFrame(w: Walker, path: string, src: RenderInput, k: string)
    requires path == "." || path in src.source
    requires path == "." || k !in Chain(StripTemplateSuffix(path))
    ensures var w' := Visit(w, path, src).w;
            (k in w'.nodes <==> k in w.nodes) && (k in w.nodes ==> w'.nodes[k] == w.nodes[k])
  {
    if path != "." && !Pruned(w.pruned, path) && !Skipped(src, path) {
      if src.source[path].Dir? {
        DirEntryFrame(w, path, src, k);
      } else {
        FileEntryFrame(w, path, src, k);
      }
    }
  }

  lemma {:induction false} DirEntryFrame(w: Walker, path: string, src: RenderInput, k: string)
    requires path in src.source && src.source[path].Dir?
    requires !Pruned(w.pruned, path) && !Skipped(src, path)
    requires k !in Chain(StripTemplateSuffix(path))
    ensures var w' := Visit(w, path, src).w;
            (k in w'.nodes <==> k in w.nodes) && (k in w.nodes ==> w'.nodes[k] == w.nodes[k])
  {
    WithDirsFrame(w.nodes, StripTemplateSuffix(path), k);
  }

  lemma {:induction false} FileEntryFrame(w: Walker, path: string, src: RenderInput, k: string)
    requires path in src.source && !src.source[path].Dir?
    requires !Pruned(w.pruned, path) && !Skipped(src, path)
    requires k !in Chain(StripTemplateSuffix(path))
    ensures var w' := Visit(w, path, src).w;
            (k in w'.nodes <==> k in w.nodes) && (k in w.nodes ==> w'.nodes[k] == w.nodes[k])
  {
    var out := StripTemplateSuffix(path);
    ParentChain(out);
    assert out != "" ==> out in Chain(out);
    WithDirsFrame(w.nodes, Parent(out), k);
  }

  /** Destination paths no entry names, directly or as a parent, are left
      untouched, whether the walk succeeds or stops early. */
  lemma {:induction false} UntouchedStays(w: Walker, walk: seq<string>, src: RenderInput, k: string)
    requires WalkOf(walk, src)
    requires k !in Touched(walk)
    ensures var w' := RenderWalk(w, walk, src).w;
            (k in w'.nodes <==> k in w.nodes) && (k in w.nodes ==> w'.nodes[k] == w.nodes[k])
    decreases |walk|
  {
    if walk != [] {
      var init := walk[..|walk| - 1];
      assert Touched(init) <= Touched(walk) by {
        forall k' | k' in Touched(init) ensures k' in Touched(walk) {
          var i :| 0 <= i < |init| && init[i] != "." && k' in Chain(StripTemplateSuffix(init[i]));
          assert walk[i] == init[i];
        }
      }
      UntouchedStays(w, init, src, k);
      var last := walk[|walk| - 1];
      if last != "." {
        TouchedCovers(walk, |walk| - 1);
      }
      match RenderWalk(w, init, src)
      case Abort(_, _) =>
      case Continue(w1) => VisitFrame(w1, last, src, k);
    }
  }

  /** A visited file is written at its output path with the transformed
      (or copied) content; an existing file there keeps its mode. */
  lemma {:induction false} VisitWritesFile(w: Walker, path: string, src: RenderInput)
    requires path != "." && path in src.source && src.source[path].File?
    requires !Pruned(w.pruned, path) && !Skipped(src, path)
    requires Visit(w, path, src).Continue?
    ensures var out := StripTemplateSuffix(path);
            var w' := Visit(w, path, src).w;
            Content(src, path).Success? && out in w'.nodes
            && w'.nodes[out] == File(Content(src, path).value,
                                     if out in w.nodes && w.nodes[out].File? then w.nodes[out].mode else FileMode)
  {
    var out := StripTemplateSuffix(path);
    ParentChain(out);
    assert out !in Ancestors(out) by {
      forall q | q in Ancestors(out) ensures |q| < |out| {
      }
    }
    WithDirsFrame(w.nodes, Parent(out), out);
  }

  /** A successful walk has succeeded on every prefix. */
  lemma {:induction false} PrefixContinues(w: Walker, walk: seq<string>, m: nat, src: RenderInput)
    requires WalkOf(walk, src) && m <= |walk|
    requires RenderWalk(w, walk, src).Continue?
    ensures RenderWalk(w, walk[..m], src).Continue?
  {
    if RenderWalk(w, walk[..m], src).Abort? {
      AbortIsFinal(w, walk, m, src);
    }
  }

  /** A file present after the first `m` entries survives the rest of a
      successful walk when no later file entry has it as its output. */
  lemma {:induction false} FileSurvivesWalk(w: Walker, walk: seq<string>, m: nat, src: RenderInput, k: string)
    requires WalkOf(walk, src) && m <= |walk|
    requires RenderWalk(w, walk, src).Continue?
    requires RenderWalk(w, walk[..m], src).Continue?
    requires var wm := RenderWalk(w, walk[..m], src).w; k in wm.nodes && wm.nodes[k].File?
    requires forall j | m <= j < |walk| && walk[j] != "." && src.source[walk[j]].File? ::
               StripTemplateSuffix(walk[j]) != k
    ensures var wm := RenderWalk(w, walk[..m], src).w;
            var wf := RenderWalk(w, walk, src).w;
            k in wf.nodes && wf.nodes[k] == wm.nodes[k]
    decreases |walk|
  {
    if m < |walk| {
      var init := walk[..|walk| - 1];
      assert init[..m] == walk[..m];
      PrefixContinues(w, walk, |walk| - 1, src);
      assert walk[..|walk| - 1] == init;
      FileSurvivesWalk(w, init, m, src, k);
      var w1 := RenderWalk(w, init, src).w;
      VisitKeepsFile(w1, walk[|walk| - 1], src, k);
    } else {
      assert walk[..m] == walk;
    }
  }

  /** Every directory the walker prunes is a source directory the skip
      rule skipped. */
  predicate PrunedSkipped(pruned: set<string>, src: RenderInput) {
    forall d | d in pruned :: d in src.source && Skipped(src, d)
  }

  /** No source directory above `path` is skipped. */
  predicate AncestorsKept(src: RenderInput, path: string) {
    forall d | d in src.source && HasPrefix(path, d + "/") :: !Skipped(src, d)
  }

  lemma {:induction false} VisitPrunesSkipped(w: Walker, path: string, src: RenderInput)
    requires path == "." || path in src.source
    requires PrunedSkipped(w.pruned, src)
    ensures PrunedSkipped(Visit(w, path, src).w.pruned, src)
  {
  }

  /** Only skipped source directories are ever pruned. */
  lemma {:induction false} WalkPrunesSkipped(w: Walker, walk: seq<string>, src: RenderInput)
    requires WalkOf(walk, src) && PrunedSkipped(w.pruned, src)
    ensures PrunedSkipped(RenderWalk(w, walk, src).w.pruned, src)
    decreases |walk|
  {
    if walk != [] {
      WalkPrunesSkipped(w, walk[..|walk| - 1], src);
      var r := RenderWalk(w, walk[..|walk| - 1], src);
      if r.Continue? {
        VisitPrunesSkipped(r.w, walk[|walk| - 1], src);
      }
    }
  }

  /** The last writer wins: after a successful walk, the output path of a
      file entry that is not skipped and has no skipped directory above it
      holds that entry's content, when no later file entry shares its
      output path. */
  lemma {:induction false} WalkWritesFile(w: Walker, walk: seq<string>, j: nat, src: RenderInput)
    requires WalkOf(walk, src) && j < |walk| && PrunedSkipped(w.pruned, src)
    requires walk[j] != "." && src.source[walk[j]].File?
    requires RenderWalk(w, walk, src).Continue?
    requires !Skipped(src, walk[j]) && AncestorsKept(src, walk[j])
    requires forall j' | j < j' < |walk| && walk[j'] != "." && src.source[walk[j']].File? ::
               StripTemplateSuffix(walk[j']) != StripTemplateSuffix(walk[j])
    ensures var out := StripTemplateSuffix(walk[j]);
            var wf := RenderWalk(w, walk, src).w;
            Content(src, walk[j]).Success? && out in wf.nodes && wf.nodes[out].File?
            && wf.nodes[out].data == Content(src, walk[j]).value
  {
    PrefixContinues(w, walk, j + 1, src);
    StepWritesFile(w, walk, j, src);
    FileSurvivesWalk(w, walk, j + 1, src, StripTemplateSuffix(walk[j]));
  }

  /** A path with no skipped directory above it is never under a pruned one. */
  lemma {:induction false} KeptNotPruned(pruned: set<string>, src: RenderInput, path: string)
    requires PrunedSkipped(pruned, src) && AncestorsKept(src, path)
    ensures !Pruned(pruned, path)
  {
  }

  /** The step that visits entry `j` writes its content. */
  lemma {:induction false} StepWritesFile(w: Walker, walk: seq<string>, j: nat, src: RenderInput)
    requires WalkOf(walk, src) && j < |walk| && PrunedSkipped(w.pruned, src)
    requires walk[j] != "." && src.source[walk[j]].File?
    requires RenderWalk(w, walk[..j + 1], src).Continue?
    requires !Skipped(src, walk[j]) && AncestorsKept(src, walk[j])
    ensures var out := StripTemplateSuffix(walk[j]);
            var wj := RenderWalk(w, walk[..j + 1], src).w;
            Content(src, walk[j]).Success? && out in wj.nodes && wj.nodes[out].File?
            && wj.nodes[out].data == Content(src, walk[j]).value
  {
    var pre := walk[..j + 1];
    assert pre[..j] == walk[..j] && pre[j] == walk[j];
    assert WalkOf(walk[..j], src);
    WalkPrunesSkipped(w, walk[..j], src);
    var r := RenderWalk(w, walk[..j], src);
    assert RenderWalk(w, pre, src) == Visit(r.w, walk[j], src);
    KeptNotPruned(r.w.pruned, src, walk[j]);
    VisitWritesFile(r.w, walk[j], src);
  }

  /** The walk visits every source entry exactly once, as `fs.WalkDir`
      does (which also puts each directory before its entries; the
      results below do not need that). */
  predicate WalkCovers(walk: seq<string>, src: RenderInput) {
    WalkOf(walk, src)
    && (forall k | k in src.source :: k in walk)
    && (forall i, j | 0 <= i < j < |walk| :: walk[i] != walk[j])
  }

  /** After a successful render every source file that is not skipped, has
      no skipped directory above it, and shares its output path with no
      other source file, is written at its output path with its content. */
  lemma {:induction false} RenderWritesEveryFile(walk: seq<string>, src: RenderInput, nodes: map<string, Node>,
                                                 present: bool, f: string)
    requires WalkCovers(walk, src)
    requires RenderWalk(Walker(nodes, present, {}), walk, src).Continue?
    requires f != "." && f in src.source && src.source[f].File?
    requires !Skipped(src, f) && AncestorsKept(src, f)
    requires forall g | g in src.source && g != f && src.source[g].File? ::
               StripTemplateSuffix(g) != StripTemplateSuffix(f)
    ensures var out := StripTemplateSuffix(f);
            var wf := RenderWalk(Walker(nodes, present, {}), walk, src).w;
            Content(src, f).Success? && out in wf.nodes && wf.nodes[out].File?
            && wf.nodes[out].data == Content(src, f).value
  {
    var j :| 0 <= j < |walk| && walk[j] == f;
    forall j' | j < j' < |walk| && walk[j'] != "." && src.source[walk[j']].File?
      ensures StripTemplateSuffix(walk[j']) != StripTemplateSuffix(walk[j])
    {
      assert walk[j'] != f;
    }
    WalkWritesFile(Walker(nodes, present, {}), walk, j, src);
  }

  /** A transform error stops the walk after the destination file was
      already opened for writing: it is left empty. */
  lemma {:induction false} TransformErrorTruncates(w: Walker, path: string, src: RenderInput)
    requires path != "." && path in src.source && src.source[path].File?
    requires !Pruned(w.pruned, path) && !Skipped(src, path) && path !in src.unreadable
    requires !MkdirBlocked(w.nodes, Parent(StripTemplateSuffix(path)))
    requires !WriteBlocked(w.nodes, StripTemplateSuffix(path))
    requires Content(src, path).Failure?
    ensures var res := Visit(w, path, src);
            var out := StripTemplateSuffix(path);
            res.Abort? && res.error == Content(src, path).error
            && out in res.w.nodes && res.w.nodes[out].File? && res.w.nodes[out].data == ""
  {
    var out := StripTemplateSuffix(path);
    ParentChain(out);
    assert out !in Ancestors(out) by {
      forall q | q in Ancestors(out) ensures |q| < |out| {
      }
    }
    WithDirsFrame(w.nodes, Parent(out), out);
  }

  /** A regular file already in the destination survives a successful step
      that does not write its own path. */
  lemma {:induction false} VisitKeepsFile(w: Walker, path: string, src: RenderInput, k: string)
    requires path == "." || path in src.source
    requires k in w.nodes && w.nodes[k].File?
    requires path == "." || src.source[path].Dir? || StripTemplateSuffix(path) != k
    requires Visit(w, path, src).Continue?
    ensures k in Visit(w, path, src).w.nodes && Visit(w, path, src).w.nodes[k] == w.nodes[k]
  {
    if path != "." && !Pruned(w.pruned, path) && !Skipped(src, path) {
      if src.source[path].Dir? {
        WithDirsFrame(w.nodes, StripTemplateSuffix(path), k);
      } else {
        FileKeepsFile(w, path, src, k);
      }
    }
  }

  lemma {:induction false} FileKeepsFile(w: Walker, path: string, src: RenderInput, k: string)
    requires path in src.source && !src.source[path].Dir?
    requires !Pruned(w.pruned, path) && !Skipped(src, path)
    requires k in w.nodes && w.nodes[k].File? && StripTemplateSuffix(path) != k
    requires Visit(w, path, src).Continue?
    ensures k in Visit(w, path, src).w.nodes && Visit(w, path, src).w.nodes[k] == w.nodes[k]
  {
    WithDirsFrame(w.nodes, Parent(StripTemplateSuffix(path)), k);
  }
}

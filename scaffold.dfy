/**
 * The scaffold pipeline: the safety gate, the rendering of the template
 * tree with the skip rules and the token substitution, the `.env` pass over
 * the rendered destination, and the optional `git init`.
 */
module Scaffold {
  import opened Wrappers
  import opened Text
  import opened Collections
  import opened FileTree
  import opened ScaffoldConfig
  import EnvMerge
  import Renderer
  import Templating
  import Conditions
  import Safety
  import EnvOverrides

  // ------------------------------------------------------------- skips

  /** The closure combineSkips builds, applied to one path: some non-nil
      predicate holds. */
  function AnySkip(skips: seq<Option<string -> bool>>, path: string): (r: bool)
    ensures r <==> exists i | 0 <= i < |skips| :: skips[i].Some? && skips[i].value(path)
  {
    if skips == [] then false
    else if skips[0].Some? && skips[0].value(path) then true
    else
      var r := AnySkip(skips[1..], path);
      assert forall i | 1 <= i < |skips| :: skips[i] == skips[1..][i - 1];
      r
  }

  /** scaffold.combineSkips. */
  function CombineSkips(skips: seq<Option<string -> bool>>): (skip: string -> bool)
    ensures forall path :: skip(path) <==> exists i | 0 <= i < |skips| :: skips[i].Some? && skips[i].value(path)
  {
    path => AnySkip(skips, path)
  }

  /** The skip rule ScaffoldFromFS renders with: the ignore globs (matched
      by `matches`) or the feature flags. */
  function ScaffoldSkip(cfg: ScaffoldConfiguration, globs: seq<string>, matches: (string, string) -> bool): string -> bool {
    CombineSkips([Some(path => Renderer.DefaultSkip(globs, matches, path)),
                  Some(path => Conditions.SkipForConfig(cfg, path))])
  }

  /** The scaffold skips a path iff the globs or the feature flags skip it. */
  lemma {:induction false} ScaffoldSkipIff(cfg: ScaffoldConfiguration, globs: seq<string>, matches: (string, string) -> bool, path: string)
    ensures ScaffoldSkip(cfg, globs, matches)(path) <==>
              Renderer.DefaultSkip(globs, matches, path) || Conditions.SkipForConfig(cfg, path)
  {
    var skips := [Some((p: string) => Renderer.DefaultSkip(globs, matches, p)),
                  Some((p: string) => Conditions.SkipForConfig(cfg, p))];
    assert ScaffoldSkip(cfg, globs, matches)(path) == AnySkip(skips, path);
    if Conditions.SkipForConfig(cfg, path) {
      assert skips[1].Some? && skips[1].value(path);
    }
  }

  // ------------------------------------------------------------- transform

  /** `fileOrder(path)` is the order in which the transform's call of
      ReplaceTokens ranges over the replacement map for the file `path`; Go
      ranges the map afresh for every file, in an unspecified order. */
  ghost predicate MapOrders(fileOrder: string -> seq<string>, m: map<string, string>) {
    forall path :: Enumerates(fileOrder(path), m.Keys)
  }

  /** The per-file transform: every file, whatever its name, goes through
      ReplaceTokens with the scaffold's four keys. */
  function ScaffoldTransform(m: map<string, string>, fileOrder: string -> seq<string>): (transform: (string, string) -> Result<string, string>)
    requires MapOrders(fileOrder, m)
    ensures forall path, content :: transform(path, content).Success?
    ensures forall path, content :: transform(path, content).value == Templating.FoldReplace(content, fileOrder(path), m)
  {
    (path: string, content: string) => Success(Templating.FoldReplace(content, fileOrder(path), m))
  }

  function ScaffoldInput(cfg: ScaffoldConfiguration, source: map<string, Node>, unreadable: set<string>,
                         globs: seq<string>, matches: (string, string) -> bool,
                         fileOrder: string -> seq<string>): Renderer.RenderInput
    requires MapOrders(fileOrder, Templating.ScaffoldReplacements(cfg.projectName, cfg.modulePath))
  {
    Renderer.RenderInput(source, unreadable, Some(ScaffoldSkip(cfg, globs, matches)),
                         Some(ScaffoldTransform(Templating.ScaffoldReplacements(cfg.projectName, cfg.modulePath), fileOrder)))
  }

  // ------------------------------------------------------------- env pass

  const EnvExampleSuffix := ".env.example"
  const ExampleSuffix := ".example"
  const MissingRootError := "no such file or directory"
  const ReadError := "read error"

  /** The `.env` file written next to `p`. */
  function EnvTarget(p: string): (target: string)
    ensures HasSuffix(p, ExampleSuffix) ==> target + ExampleSuffix == p
    ensures !HasSuffix(p, ExampleSuffix) ==> target == p
  {
    TrimSuffix(p, ExampleSuffix)
  }

  /** The files the env pass reads: regular files whose name ends in
      ".env.example". */
  function EnvSources(nodes: map<string, Node>): set<string> {
    set p | p in nodes && nodes[p].File? && HasSuffix(p, EnvExampleSuffix)
  }

  function EnvTargets(nodes: map<string, Node>): set<string> {
    set p | p in EnvSources(nodes) :: EnvTarget(p)
  }

  /** The overrides for one file: its entry in the map, or none. */
  function OverridesFor(overrides: Option<map<string, map<string, string>>>, key: string): map<string, string> {
    if overrides.Some? && key in overrides.value then overrides.value[key] else map[]
  }

  /** `order` is an order in which the merge of source `p` may append its
      unmatched overrides. */
  ghost predicate EnvOrder(nodes: map<string, Node>, p: string, overrides: Option<map<string, map<string, string>>>,
                           order: seq<string>)
    requires p in EnvSources(nodes)
  {
    (forall i | 0 <= i < |order| :: order[i] in OverridesFor(overrides, p))
    && Enumerates(order, EnvMerge.Unmatched(EnvMerge.ScanLines(nodes[p].data), OverridesFor(overrides, p)))
  }

  /** The file written for source `p`: the merge, keeping the mode of an
      existing target, or taking the source's mode for a new one. */
  function EnvFile(nodes: map<string, Node>, p: string, overrides: Option<map<string, map<string, string>>>,
                   order: seq<string>): Node
    requires p in EnvSources(nodes)
    requires forall i | 0 <= i < |order| :: order[i] in OverridesFor(overrides, p)
  {
    var t := EnvTarget(p);
    File(EnvMerge.MergeWith(nodes[p].data, OverridesFor(overrides, p), order),
         if t in nodes && nodes[t].File? then nodes[t].mode else nodes[p].mode)
  }

  /** Every source can be read and its target written. */
  ghost predicate EnvOk(nodes: map<string, Node>, unreadable: set<string>) {
    forall p | p in EnvSources(nodes) :: p !in unreadable && !WriteBlocked(nodes, EnvTarget(p))
  }

  /** Only targets of the env pass differ between the two trees. */
  ghost predicate OnlyTargetsChanged(before: map<string, Node>, after: map<string, Node>) {
    forall k | k !in EnvTargets(before) :: (k in after <==> k in before) && (k in before ==> after[k] == before[k])
  }

  /** Every source's target holds its merge. */
  ghost predicate EnvWritten(before: map<string, Node>, after: map<string, Node>,
                             overrides: Option<map<string, map<string, string>>>, orders: map<string, seq<string>>) {
    forall p | p in EnvSources(before) ::
      p in orders && EnvOrder(before, p, overrides, orders[p])
      && EnvTarget(p) in after && after[EnvTarget(p)] == EnvFile(before, p, overrides, orders[p])
  }

  /** A target is the source without ".example": it ends in ".env", so it
      is never itself a source. */
  lemma {:induction false} EnvTargetShape(p: string)
    requires HasSuffix(p, EnvExampleSuffix)
    ensures EnvTarget(p) + ExampleSuffix == p
    ensures HasSuffix(EnvTarget(p), ".env") && !HasSuffix(EnvTarget(p), EnvExampleSuffix) && EnvTarget(p) != ""
  {
    var t := EnvTarget(p);
    assert HasSuffix(p, ExampleSuffix) by {
      assert p[|p| - |ExampleSuffix|..] == EnvExampleSuffix[4..];
    }
    assert |t| == |p| - 8;
    assert t[|t| - 4..] == p[|p| - 12..|p| - 8];
    assert p[|p| - 12..|p| - 8] == EnvExampleSuffix[..4];
    if |t| >= |EnvExampleSuffix| {
      assert t[|t| - 1] == 'v' && EnvExampleSuffix[|EnvExampleSuffix| - 1] == 'e';
      assert t[|t| - |EnvExampleSuffix|..][|EnvExampleSuffix| - 1] == t[|t| - 1];
    }
  }

  /** Two sources never share a target. */
  lemma {:induction false} EnvTargetInjective(p: string, q: string)
    requires HasSuffix(p, EnvExampleSuffix) && HasSuffix(q, EnvExampleSuffix)
    requires EnvTarget(p) == EnvTarget(q)
    ensures p == q
  {
    EnvTargetShape(p);
    EnvTargetShape(q);
  }

  /** The walk callback on one `.env.example` file that could be read:
      merge it and write the target. */
  method WriteEnvFile(disk: Disk, p: string, overrides: Option<map<string, map<string, string>>>)
    returns (r: Outcome<string>, ghost order: seq<string>)
    requires p in EnvSources(disk.nodes)
    modifies disk
    ensures disk.present == old(disk.present)
    ensures r.Fail? <==> WriteBlocked(old(disk.nodes), EnvTarget(p))
    ensures r.Fail? ==> disk.nodes == old(disk.nodes)
    ensures EnvOrder(old(disk.nodes), p, overrides, order)
    ensures r.Pass? ==> disk.nodes == old(disk.nodes)[EnvTarget(p) := EnvFile(old(disk.nodes), p, overrides, order)]
  {
    var content := disk.nodes[p].data;
    var ov := OverridesFor(overrides, p);
    var merged;
    merged, order := EnvMerge.MergeEnvExample(content, ov);
    r := disk.WriteFile(EnvTarget(p), merged, disk.nodes[p].mode);
  }

  /** generateEnvFiles over the destination.  The walk's lexical order is
      replaced by an arbitrary one: the result on success does not depend
      on it, since no target is a source and no two sources share a target.
      On failure the contract says only that the pass fails: which example's
      error comes back depends on that order and is left unspecified.
      `unreadable` stands for the files whose read fails; `orders` reports
      the order each merge appended its unmatched overrides in. */
  method GenerateEnvFiles(disk: Disk, overrides: Option<map<string, map<string, string>>>, unreadable: set<string>)
    returns (r: Outcome<string>, ghost orders: map<string, seq<string>>)
    modifies disk
    ensures disk.present == old(disk.present)
    ensures !old(disk.present) ==> r == Fail(MissingRootError) && disk.nodes == old(disk.nodes)
    ensures old(disk.present) ==> (r.Pass? <==> EnvOk(old(disk.nodes), unreadable))
    ensures OnlyTargetsChanged(old(disk.nodes), disk.nodes)
    ensures r.Pass? ==> EnvWritten(old(disk.nodes), disk.nodes, overrides, orders)
  {
    if !disk.present {
      return Fail(MissingRootError), map[];
    }
    r, orders := EnvLoop(disk, overrides, unreadable);
  }

  /** The walk of generateEnvFiles over a destination that exists. */
  method EnvLoop(disk: Disk, overrides: Option<map<string, map<string, string>>>, unreadable: set<string>)
    returns (r: Outcome<string>, ghost orders: map<string, seq<string>>)
    requires disk.present
    modifies disk
    ensures disk.present
    ensures r.Pass? <==> EnvOk(old(disk.nodes), unreadable)
    ensures OnlyTargetsChanged(old(disk.nodes), disk.nodes)
    ensures r.Pass? ==> EnvWritten(old(disk.nodes), disk.nodes, overrides, orders)
  {
    orders := map[];
    ghost var start := disk.nodes;
    ghost var sources := EnvSources(start);
    var remaining := EnvSources(disk.nodes);
    ghost var done: set<string> := {};
    ghost var written: set<string> := {};
    while remaining != {}
      invariant disk.present
      invariant EnvLoopInv(start, disk.nodes, sources, remaining, done, written, unreadable, overrides, orders)
      decreases |remaining|
    {
      var p :| p in remaining;
      var w, order := EnvStep(disk, p, overrides, unreadable, start, done, written, orders);
      if w.Fail? {
        return w, orders;
      }
      EnvLoopStep(start, disk.nodes, sources, remaining, done, written, unreadable, overrides, orders, p, order);
      orders := orders[p := order];
      done := done + {p};
      written := written + {EnvTarget(p)};
      remaining := remaining - {p};
    }
    ProgressFrame(start, disk.nodes, done, written, unreadable, overrides, orders);
    ProgressDone(start, disk.nodes, done, written, unreadable, overrides, orders);
    return Pass, orders;
  }

  /** The env pass's loop invariant: the sources split into those still to
      visit, whose targets are untouched, and those done. */
  ghost predicate EnvLoopInv(start: map<string, Node>, now: map<string, Node>, sources: set<string>,
                             remaining: set<string>, done: set<string>, written: set<string>,
                             unreadable: set<string>, overrides: Option<map<string, map<string, string>>>,
                             orders: map<string, seq<string>>)
  {
    remaining !! done && remaining + done == sources && sources == EnvSources(start)
    && (forall q | q in remaining :: q !in written && EnvTarget(q) !in written)
    && Progress(start, now, done, written, unreadable, overrides, orders)
  }

  /** One more source done keeps the loop invariant. */
  lemma {:induction false} EnvLoopStep(start: map<string, Node>, now: map<string, Node>, sources: set<string>,
                                       remaining: set<string>, done: set<string>, written: set<string>,
                                       unreadable: set<string>, overrides: Option<map<string, map<string, string>>>,
                                       orders: map<string, seq<string>>, p: string, order: seq<string>)
    requires remaining !! done && remaining + done == sources && sources == EnvSources(start)
    requires forall q | q in remaining :: q !in written && EnvTarget(q) !in written
    requires p in remaining
    requires Progress(start, now, done + {p}, written + {EnvTarget(p)}, unreadable, overrides, orders[p := order])
    ensures EnvLoopInv(start, now, sources, remaining - {p}, done + {p}, written + {EnvTarget(p)},
                       unreadable, overrides, orders[p := order])
  {
    TargetsApart(p, remaining - {p});
  }

  /** Source `q` was read and its target holds its merge. */
  ghost predicate DoneOk(start: map<string, Node>, now: map<string, Node>, q: string, unreadable: set<string>,
                         overrides: Option<map<string, map<string, string>>>, orders: map<string, seq<string>>)
    requires q in EnvSources(start)
  {
    q !in unreadable && !WriteBlocked(start, EnvTarget(q))
    && q in orders && EnvOrder(start, q, overrides, orders[q])
    && EnvTarget(q) in now && now[EnvTarget(q)] == EnvFile(start, q, overrides, orders[q])
  }

  /** One iteration of the env pass: read source `p`, merge it and write
      its target, or stop with the error that ends the pass. */
  method EnvStep(disk: Disk, p: string, overrides: Option<map<string, map<string, string>>>, unreadable: set<string>,
                 ghost start: map<string, Node>, ghost done: set<string>, ghost written: set<string>,
                 ghost orders: map<string, seq<string>>)
    returns (r: Outcome<string>, ghost order: seq<string>)
    requires Progress(start, disk.nodes, done, written, unreadable, overrides, orders)
    requires p in EnvSources(start) && p !in done && p !in written && EnvTarget(p) !in written
    modifies disk
    ensures disk.present == old(disk.present)
    ensures r.Fail? ==> !EnvOk(start, unreadable) && OnlyTargetsChanged(start, disk.nodes)
    ensures r.Pass? ==> Progress(start, disk.nodes, done + {p}, written + {EnvTarget(p)}, unreadable, overrides,
                                 orders[p := order])
  {
    ghost var before := disk.nodes;
    ProgressFrame(start, before, done, written, unreadable, overrides, orders);
    order := [];
    if p in unreadable {
      return Fail(ReadError), order;
    }
    assert before[p] == start[p];
    r, order := WriteEnvFile(disk, p, overrides);
    if r.Fail? {
      assert EnvTarget(p) in before <==> EnvTarget(p) in start;
      return;
    }
    ProgressStep(start, before, disk.nodes, done, written, unreadable, overrides, orders, p, order);
  }

  /** The env pass so far: the sources in `done` were read and their
      targets, collected in `written`, hold their merges; everything else is
      as it was. */
  ghost predicate Progress(start: map<string, Node>, now: map<string, Node>, done: set<string>, written: set<string>,
                           unreadable: set<string>, overrides: Option<map<string, map<string, string>>>,
                           orders: map<string, seq<string>>)
  {
    done <= EnvSources(start)
    && written <= EnvTargets(start)
    && (forall k | k !in written :: (k in now <==> k in start) && (k in start ==> now[k] == start[k]))
    && (forall q {:trigger DoneOk(start, now, q, unreadable, overrides, orders)} | q in done ::
          EnvTarget(q) in written && DoneOk(start, now, q, unreadable, overrides, orders))
  }

  /** Writing the target of one more source keeps the progress. */
  lemma {:induction false} ProgressStep(start: map<string, Node>, before: map<string, Node>, after: map<string, Node>,
                                        done: set<string>, written: set<string>, unreadable: set<string>,
                                        overrides: Option<map<string, map<string, string>>>,
                                        orders: map<string, seq<string>>, p: string, order: seq<string>)
    requires Progress(start, before, done, written, unreadable, overrides, orders)
    requires p in EnvSources(start) && p !in done && p !in unreadable
    requires p !in written && EnvTarget(p) !in written
    requires p in EnvSources(before) && EnvOrder(before, p, overrides, order)
    requires !WriteBlocked(before, EnvTarget(p))
    requires after == before[EnvTarget(p) := EnvFile(before, p, overrides, order)]
    ensures Progress(start, after, done + {p}, written + {EnvTarget(p)}, unreadable, overrides, orders[p := order])
  {
    var t := EnvTarget(p);
    assert t in EnvTargets(start);
    ProgressOpen(start, before, done, written, unreadable, overrides, orders);
    StepFrame(start, before, after, written, t);
    StepDone(start, before, after, done, written, unreadable, overrides, orders, p, order);
    ProgressClose(start, after, done + {p}, written + {t}, unreadable, overrides, orders[p := order]);
  }

  lemma {:induction false} ProgressOpen(start: map<string, Node>, now: map<string, Node>, done: set<string>,
                                        written: set<string>, unreadable: set<string>,
                                        overrides: Option<map<string, map<string, string>>>,
                                        orders: map<string, seq<string>>)
    requires Progress(start, now, done, written, unreadable, overrides, orders)
    ensures done <= EnvSources(start) && written <= EnvTargets(start)
    ensures forall k | k !in written :: (k in now <==> k in start) && (k in start ==> now[k] == start[k])
    ensures forall q | q in done :: EnvTarget(q) in written && DoneOk(start, now, q, unreadable, overrides, orders)
  {
    forall q | q in done
      ensures EnvTarget(q) in written && DoneOk(start, now, q, unreadable, overrides, orders)
    {
      assert DoneOk(start, now, q, unreadable, overrides, orders);
    }
  }

  lemma {:induction false} ProgressClose(start: map<string, Node>, now: map<string, Node>, done: set<string>,
                                         written: set<string>, unreadable: set<string>,
                                         overrides: Option<map<string, map<string, string>>>,
                                         orders: map<string, seq<string>>)
    requires done <= EnvSources(start) && written <= EnvTargets(start)
    requires forall k | k !in written :: (k in now <==> k in start) && (k in start ==> now[k] == start[k])
    requires forall q | q in done :: EnvTarget(q) in written && DoneOk(start, now, q, unreadable, overrides, orders)
    ensures Progress(start, now, done, written, unreadable, overrides, orders)
  {
  }

  lemma {:induction false} StepFrame(start: map<string, Node>, before: map<string, Node>, after: map<string, Node>,
                                     written: set<string>, t: string)
    requires forall k | k !in written :: (k in before <==> k in start) && (k in start ==> before[k] == start[k])
    requires t in after && forall k | k != t :: (k in after <==> k in before) && (k in before ==> after[k] == before[k])
    ensures forall k | k !in written + {t} :: (k in after <==> k in start) && (k in start ==> after[k] == start[k])
  {
  }

  lemma {:induction false} StepDone(start: map<string, Node>, before: map<string, Node>, after: map<string, Node>,
                                    done: set<string>, written: set<string>, unreadable: set<string>,
                                    overrides: Option<map<string, map<string, string>>>,
                                    orders: map<string, seq<string>>, p: string, order: seq<string>)
    requires done <= EnvSources(start)
    requires forall q | q in done :: EnvTarget(q) in written && DoneOk(start, before, q, unreadable, overrides, orders)
    requires forall k | k !in written :: (k in before <==> k in start) && (k in start ==> before[k] == start[k])
    requires p in EnvSources(start) && p !in done && p !in unreadable
    requires p !in written && EnvTarget(p) !in written
    requires p in EnvSources(before) && EnvOrder(before, p, overrides, order)
    requires !WriteBlocked(before, EnvTarget(p))
    requires after == before[EnvTarget(p) := EnvFile(before, p, overrides, order)]
    ensures forall q | q in done + {p} ::
              EnvTarget(q) in written + {EnvTarget(p)} && DoneOk(start, after, q, unreadable, overrides, orders[p := order])
  {
    var t := EnvTarget(p);
    DoneOkNew(start, before, after, written, unreadable, overrides, orders, p, order);
    forall q | q in done
      ensures DoneOk(start, after, q, unreadable, overrides, orders[p := order])
    {
      DoneOkStep(start, before, after, q, t, unreadable, overrides, orders, p, order);
    }
  }

  /** The source just written is done. */
  lemma {:induction false} DoneOkNew(start: map<string, Node>, before: map<string, Node>, after: map<string, Node>,
                                     written: set<string>, unreadable: set<string>,
                                     overrides: Option<map<string, map<string, string>>>,
                                     orders: map<string, seq<string>>, p: string, order: seq<string>)
    requires forall k | k !in written :: (k in before <==> k in start) && (k in start ==> before[k] == start[k])
    requires p in EnvSources(start) && p !in unreadable
    requires p !in written && EnvTarget(p) !in written
    requires p in EnvSources(before) && EnvOrder(before, p, overrides, order)
    requires !WriteBlocked(before, EnvTarget(p))
    requires after == before[EnvTarget(p) := EnvFile(before, p, overrides, order)]
    ensures DoneOk(start, after, p, unreadable, overrides, orders[p := order])
  {
    EnvFileFrame(before, start, p, overrides, order);
  }

  /** A source already done is unaffected by writing another target. */
  lemma {:induction false} DoneOkStep(start: map<string, Node>, before: map<string, Node>, after: map<string, Node>,
                                      q: string, t: string, unreadable: set<string>,
                                      overrides: Option<map<string, map<string, string>>>,
                                      orders: map<string, seq<string>>, p: string, order: seq<string>)
    requires q in EnvSources(start) && q != p && EnvTarget(q) != t
    requires DoneOk(start, before, q, unreadable, overrides, orders)
    requires t in after && (forall k | k != t :: (k in after <==> k in before) && (k in before ==> after[k] == before[k]))
    ensures DoneOk(start, after, q, unreadable, overrides, orders[p := order])
  {
    assert orders[p := order][q] == orders[q];
    assert after[EnvTarget(q)] == before[EnvTarget(q)];
  }

  /** The progress so far changed targets only. */
  lemma {:induction false} ProgressFrame(start: map<string, Node>, now: map<string, Node>, done: set<string>,
                                         written: set<string>, unreadable: set<string>,
                                         overrides: Option<map<string, map<string, string>>>,
                                         orders: map<string, seq<string>>)
    requires Progress(start, now, done, written, unreadable, overrides, orders)
    ensures OnlyTargetsChanged(start, now)
  {
  }

  /** When every source is done, every target holds its merge and nothing
      failed. */
  lemma {:induction false} ProgressDone(start: map<string, Node>, now: map<string, Node>, done: set<string>,
                                        written: set<string>, unreadable: set<string>,
                                        overrides: Option<map<string, map<string, string>>>,
                                        orders: map<string, seq<string>>)
    requires Progress(start, now, done, written, unreadable, overrides, orders)
    requires done == EnvSources(start)
    ensures EnvOk(start, unreadable) && EnvWritten(start, now, overrides, orders)
  {
    forall p | p in EnvSources(start)
      ensures p !in unreadable && !WriteBlocked(start, EnvTarget(p))
      ensures p in orders && EnvOrder(start, p, overrides, orders[p])
      ensures EnvTarget(p) in now && now[EnvTarget(p)] == EnvFile(start, p, overrides, orders[p])
    {
      assert DoneOk(start, now, p, unreadable, overrides, orders);
    }
  }

  /** The merge written for `p` depends only on the source and the target's
      previous state. */
  lemma {:induction false} EnvFileFrame(n1: map<string, Node>, n2: map<string, Node>, p: string,
                                        overrides: Option<map<string, map<string, string>>>, order: seq<string>)
    requires p in EnvSources(n2) && p in n1 && n1[p] == n2[p]
    requires EnvTarget(p) in n1 <==> EnvTarget(p) in n2
    requires EnvTarget(p) in n1 ==> n1[EnvTarget(p)] == n2[EnvTarget(p)]
    requires EnvOrder(n1, p, overrides, order)
    ensures p in EnvSources(n1) && EnvOrder(n2, p, overrides, order)
    ensures EnvFile(n1, p, overrides, order) == EnvFile(n2, p, overrides, order)
  {
  }

  /** After writing the target of `p`, the sources still to come are neither
      that target nor share it. */
  lemma {:induction false} TargetsApart(p: string, rest: set<string>)
    requires HasSuffix(p, EnvExampleSuffix)
    requires forall q | q in rest :: HasSuffix(q, EnvExampleSuffix) && q != p
    ensures forall q | q in rest :: q != EnvTarget(p) && EnvTarget(q) != EnvTarget(p)
  {
    forall q | q in rest ensures q != EnvTarget(p) && EnvTarget(q) != EnvTarget(p) {
      EnvTargetShape(p);
      if EnvTarget(q) == EnvTarget(p) {
        EnvTargetInjective(p, q);
      }
    }
  }

  // ------------------------------------------------------------- pipeline

  /** The overrides the env pass uses: the caller's, or when there are none
      the ones derived from the configuration. */
  function EffectiveOverrides(cfg: ScaffoldConfiguration, envOverrides: Option<map<string, map<string, string>>>)
    : (r: Option<map<string, map<string, string>>>)
    ensures r.Some?
    ensures envOverrides.Some? ==> r == envOverrides
    ensures envOverrides.None? ==> r.value.Keys == {EnvOverrides.ApiEnvExample}
  {
    if envOverrides.None? then Some(EnvOverrides.EnvOverridesFromConfig(cfg)) else envOverrides
  }

  /** The safety gate over the destination as it is found. */
  function Gate(disk: Disk, statError: Option<string>, readError: Option<string>, allowOverwrite: bool): Outcome<string>
    reads disk
  {
    Safety.EnsureSafeDestination(Safety.Probe(disk, statError, readError), allowOverwrite)
  }

  /** scaffold.ScaffoldFromFS.  The template tree is `source`, walked in the
      order `walk`; `globs` and `matches` are the ignore globs and the glob
      matcher; `statError`, `readError`, `unreadable`, `envUnreadable` and
      `gitResult` stand for the failures of the file system and of `git`;
      `fileOrder` is the map order each file's ReplaceTokens call takes.
      The steps run in order and the first failure is returned; when the
      env pass is the step that fails, which example's error comes back is
      left unspecified, as in GenerateEnvFiles.  `rendered`
      is the outcome of the render, `ranGit` says whether `git init` ran. */
  method ScaffoldFromFS(cfg: ScaffoldConfiguration, allowOverwrite: bool, disk: Disk,
                        statError: Option<string>, readError: Option<string>,
                        walk: seq<string>, source: map<string, Node>, unreadable: set<string>,
                        globs: seq<string>, matches: (string, string) -> bool,
                        envOverrides: Option<map<string, map<string, string>>>, envUnreadable: set<string>,
                        gitResult: Outcome<string>, fileOrder: string -> seq<string>)
    returns (r: Outcome<string>, ranGit: bool,
             ghost rendered: Renderer.StepResult, ghost orders: map<string, seq<string>>)
    requires forall i | 0 <= i < |walk| :: walk[i] == "." || walk[i] in source
    requires MapOrders(fileOrder, Templating.ScaffoldReplacements(cfg.projectName, cfg.modulePath))
    modifies disk
    ensures old(Gate(disk, statError, readError, allowOverwrite)).Fail? ==>
              r == old(Gate(disk, statError, readError, allowOverwrite)) && !ranGit
              && disk.nodes == old(disk.nodes) && disk.present == old(disk.present)
    ensures old(Gate(disk, statError, readError, allowOverwrite)).Pass? ==>
              Renderer.WalkOf(walk, ScaffoldInput(cfg, source, unreadable, globs, matches, fileOrder))
              && rendered == Renderer.RenderWalk(Renderer.Walker(old(disk.nodes), old(disk.present), {}), walk,
                                                 ScaffoldInput(cfg, source, unreadable, globs, matches, fileOrder))
    ensures old(Gate(disk, statError, readError, allowOverwrite)).Pass? && rendered.Abort? ==>
              r == Fail(rendered.error) && !ranGit
              && disk.nodes == rendered.w.nodes && disk.present == rendered.w.present
    ensures old(Gate(disk, statError, readError, allowOverwrite)).Pass? && rendered.Continue? ==>
              disk.present == rendered.w.present && OnlyTargetsChanged(rendered.w.nodes, disk.nodes)
    ensures r.Pass? <==>
              old(Gate(disk, statError, readError, allowOverwrite)).Pass? && rendered.Continue? && rendered.w.present
              && EnvOk(rendered.w.nodes, envUnreadable) && (cfg.initGit ==> gitResult.Pass?)
    ensures ranGit <==>
              old(Gate(disk, statError, readError, allowOverwrite)).Pass? && rendered.Continue? && rendered.w.present
              && EnvOk(rendered.w.nodes, envUnreadable) && cfg.initGit
    ensures ranGit ==> r == gitResult
    ensures r.Pass? ==> EnvWritten(rendered.w.nodes, disk.nodes, EffectiveOverrides(cfg, envOverrides), orders)
  {
    ranGit := false;
    orders := map[];
    rendered := Renderer.Continue(Renderer.Walker(disk.nodes, disk.present, {}));
    var gate := Gate(disk, statError, readError, allowOverwrite);
    if gate.Fail? {
      return gate, ranGit, rendered, orders;
    }
    var src := ScaffoldInput(cfg, source, unreadable, globs, matches, fileOrder);
    ghost var start := Renderer.Walker(disk.nodes, disk.present, {});
    var rr := Renderer.RenderFS(disk, walk, src);
    rendered := Renderer.RenderWalk(start, walk, src);
    if rr.Fail? {
      return rr, ranGit, rendered, orders;
    }
    var env;
    env, orders := GenerateEnvFiles(disk, EffectiveOverrides(cfg, envOverrides), envUnreadable);
    if env.Fail? {
      return env, ranGit, rendered, orders;
    }
    r := Pass;
    if cfg.initGit {
      ranGit := true;
      r := gitResult;
    }
  }

  /** The transform does not look at the file name: a rendered file that is
      not a ".tmpl" template keeps its name and still goes through
      ReplaceTokens, so a plain file holding "{{PROJECT_NAME}}" comes out as
      the project name (when the name holds none of the other keys).  The
      render input is the scaffold's, walked from an unpruned start; the file
      is not skipped, no directory above it is, and no other source file
      shares its output path. */
  lemma {:induction false} PlainFileSubstituted(cfg: ScaffoldConfiguration, source: map<string, Node>,
                                                unreadable: set<string>, globs: seq<string>,
                                                matches: (string, string) -> bool, fileOrder: string -> seq<string>,
                                                walk: seq<string>, nodes: map<string, Node>, present: bool, f: string)
    requires MapOrders(fileOrder, Templating.ScaffoldReplacements(cfg.projectName, cfg.modulePath))
    requires var src := ScaffoldInput(cfg, source, unreadable, globs, matches, fileOrder);
             Renderer.WalkCovers(walk, src)
             && Renderer.RenderWalk(Renderer.Walker(nodes, present, {}), walk, src).Continue?
             && !Renderer.Skipped(src, f) && Renderer.AncestorsKept(src, f)
    requires f != "." && f in source && source[f].File? && !HasSuffix(f, Renderer.TemplateSuffix)
    requires forall g | g in source && g != f && source[g].File? :: Renderer.StripTemplateSuffix(g) != f
    ensures var src := ScaffoldInput(cfg, source, unreadable, globs, matches, fileOrder);
            var wf := Renderer.RenderWalk(Renderer.Walker(nodes, present, {}), walk, src).w;
            f in wf.nodes && wf.nodes[f].File?
            && wf.nodes[f].data
               == Templating.FoldReplace(source[f].data, fileOrder(f),
                                         Templating.ScaffoldReplacements(cfg.projectName, cfg.modulePath))
    ensures var src := ScaffoldInput(cfg, source, unreadable, globs, matches, fileOrder);
            var wf := Renderer.RenderWalk(Renderer.Walker(nodes, present, {}), walk, src).w;
            source[f].data == Templating.ProjectNameToken
            && !Contains(cfg.projectName, Templating.ModulePathToken)
            && !Contains(cfg.projectName, Templating.TemplateModulePath)
            && !Contains(cfg.projectName, Templating.TemplateProjectName)
            ==> f in wf.nodes && wf.nodes[f].data == cfg.projectName
  {
    var src := ScaffoldInput(cfg, source, unreadable, globs, matches, fileOrder);
    assert Renderer.StripTemplateSuffix(f) == f;
    Renderer.RenderWritesEveryFile(walk, src, nodes, present, f);
    if source[f].data == Templating.ProjectNameToken
       && !Contains(cfg.projectName, Templating.ModulePathToken)
       && !Contains(cfg.projectName, Templating.TemplateModulePath)
       && !Contains(cfg.projectName, Templating.TemplateProjectName)
    {
      Templating.ProjectNameTokenFold(cfg.projectName, cfg.modulePath, fileOrder(f));
    }
  }
}

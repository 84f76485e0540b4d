/**
 * The destination directory the scaffold writes into.  Paths are relative
 * to the destination root, '/'-separated and clean ("apps/api/main.go");
 * the empty path is the root itself.  Only the effects the scaffold relies
 * on are kept: `os.MkdirAll` (creating every missing ancestor, failing when
 * one of them is a regular file) and writing a file (creating it with the
 * given permission bits, or truncating an existing file and keeping its
 * permission bits, failing when the path is a directory).
 */
module FileTree {
  import opened Wrappers
  import opened Text

  datatype Node = Dir | File(data: string, mode: int)

  /** 0o644, the permission bits `RenderFS` creates files with. */
  const FileMode := 420

  const NotADirectoryError := "not a directory"
  const IsADirectoryError := "is a directory"

  /** The proper ancestors of a relative path: "a/b/c" has "a" and "a/b". */
  function Ancestors(p: string): set<string> {
    set i | 0 < i < |p| && p[i] == '/' :: p[..i]
  }

  /** The directories `os.MkdirAll(p)` must find or create. */
  function Chain(p: string): set<string> {
    if p == "" then {} else Ancestors(p) + {p}
  }

  /** filepath.Dir within the destination: the path up to its last '/', or
      the root. */
  function Parent(p: string): (r: string)
    ensures |r| <= |p| && r == p[..|r|]
    ensures r != "" ==> r in Ancestors(p)
    decreases |p|
  {
    if p == "" then ""
    else if p[|p| - 1] == '/' then p[..|p| - 1]
    else Parent(p[..|p| - 1])
  }

  /** Some directory `os.MkdirAll(p)` needs is a regular file. */
  predicate MkdirBlocked(nodes: map<string, Node>, p: string) {
    exists q | q in Chain(p) :: q in nodes && nodes[q].File?
  }

  function WithDirs(nodes: map<string, Node>, p: string): map<string, Node> {
    nodes + map q | q in Chain(p) :: Dir
  }

  /** The state after a successful write of `data` to `p`. */
  function WithFile(nodes: map<string, Node>, p: string, data: string, perm: int): map<string, Node> {
    nodes[p := File(data, if p in nodes && nodes[p].File? then nodes[p].mode else perm)]
  }

  /** A write to `p` fails: the root or a directory is in the way. */
  predicate WriteBlocked(nodes: map<string, Node>, p: string) {
    p == "" || (p in nodes && nodes[p].Dir?)
  }

  class Disk {
    /** Whether the destination root exists (as a directory). */
    var present: bool
    /** Every entry below the root. */
    var nodes: map<string, Node>

    constructor (present: bool, nodes: map<string, Node>)
      ensures this.present == present && this.nodes == nodes
    {
      this.present := present;
      this.nodes := nodes;
    }

    /** os.MkdirAll: nothing changes when it fails. */
    method MkdirAll(p: string) returns (r: Outcome<string>)
      modifies this
      ensures r.Fail? <==> MkdirBlocked(old(nodes), p)
      ensures r.Fail? ==> r.error == NotADirectoryError && nodes == old(nodes) && present == old(present)
      ensures r.Pass? ==> nodes == WithDirs(old(nodes), p) && present
    {
      if exists q | q in Chain(p) :: q in nodes && nodes[q].File? {
        return Fail(NotADirectoryError);
      }
      nodes := nodes + map q | q in Chain(p) :: Dir;
      present := true;
      return Pass;
    }

    /** Opening `p` for writing with O_CREATE|O_TRUNC (or os.WriteFile):
        the file ends up holding `data`. */
    method WriteFile(p: string, data: string, perm: int) returns (r: Outcome<string>)
      modifies this
      ensures r.Fail? <==> WriteBlocked(old(nodes), p)
      ensures r.Fail? ==> r.error == IsADirectoryError && nodes == old(nodes) && present == old(present)
      ensures r.Pass? ==> nodes == WithFile(old(nodes), p, data, perm) && present == old(present)
    {
      if p == "" || (p in nodes && nodes[p].Dir?) {
        return Fail(IsADirectoryError);
      }
      var mode := if p in nodes && nodes[p].File? then nodes[p].mode else perm;
      nodes := nodes[p := File(data, mode)];
      return Pass;
    }
  }

  /** Creating directories never disturbs a key outside the chain, and
      leaves every key of the chain a directory. */
  lemma {:induction false} WithDirsFrame(nodes: map<string, Node>, p: string, k: string)
    ensures k in Chain(p) ==> k in WithDirs(nodes, p) && WithDirs(nodes, p)[k] == Dir
    ensures k !in Chain(p) ==> (k in WithDirs(nodes, p) <==> k in nodes)
    ensures k !in Chain(p) && k in nodes ==> WithDirs(nodes, p)[k] == nodes[k]
  {
  }

  /** Truncating a file and then writing it leaves what one write leaves:
      the mode is settled by the first. */
  lemma {:induction false} WithFileTwice(nodes: map<string, Node>, p: string, d1: string, d2: string, perm: int)
    ensures WithFile(WithFile(nodes, p, d1, perm), p, d2, perm) == WithFile(nodes, p, d2, perm)
  {
  }

  /** A file's parent is in its chain of directories, and so are the
      parent's own ancestors. */
  lemma {:induction false} ParentChain(p: string)
    ensures Chain(Parent(p)) <= Ancestors(p)
  {
    var par := Parent(p);
    if par != "" {
      forall q | q in Ancestors(par) ensures q in Ancestors(p) {
        var i :| 0 < i < |par| && par[i] == '/' && q == par[..i];
        assert p[i] == '/' && p[..i] == q;
      }
    }
  }
}

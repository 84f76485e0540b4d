/**
 * The safety gate run before anything is written: the destination must be
 * missing or an empty directory, unless overwriting was allowed.
 */
module Safety {
  import opened Wrappers
  import opened ValidatePath
  import opened FileTree

  const NotEmptyError := "destination directory is not empty"

  /** scaffold.EnsureSafeDestination over the probe of the destination.
      Being a function of the probe, it writes nothing. */
  function EnsureSafeDestination(probe: DirProbe, allowOverwrite: bool): (r: Outcome<string>)
    ensures probe.Missing? ==> r.Pass?
    ensures IsNonEmptyDir(probe).Failure? ==> r == Fail(IsNonEmptyDir(probe).error)
    ensures probe.NotDirectory? ==> r == Fail(NotADirectoryMessage)
    ensures IsNonEmptyDir(probe).Success? ==>
              (r == Fail(NotEmptyError) <==> IsNonEmptyDir(probe).value && !allowOverwrite)
    ensures r.Pass? <==> IsNonEmptyDir(probe).Success? && (allowOverwrite || !IsNonEmptyDir(probe).value)
  {
    var nonEmpty := IsNonEmptyDir(probe);
    if nonEmpty.Failure? then Fail(nonEmpty.error)
    else if nonEmpty.value && !allowOverwrite then Fail(NotEmptyError)
    else Pass
  }

  /** The entries directly under the destination root. */
  function TopLevel(nodes: map<string, Node>): set<string> {
    set p | p in nodes && '/' !in p
  }

  /** What `os.Stat` and `os.ReadDir` report for the destination, with
      `statError` and `readError` standing for failures other than absence. */
  function Probe(disk: Disk, statError: Option<string>, readError: Option<string>): DirProbe
    reads disk
  {
    if statError.Some? then StatFailed(statError.value)
    else if !disk.present then Missing
    else if readError.Some? then Directory(Failure(readError.value))
    else Directory(Success(|TopLevel(disk.nodes)|))
  }

  /** An empty destination passes, and so does any directory when
      overwriting is allowed. */
  lemma {:induction false} EmptyOrOverwritePasses(present: bool, nodes: map<string, Node>, n: nat, allowOverwrite: bool)
    requires nodes == map[] || allowOverwrite
    requires n == |TopLevel(nodes)|
    ensures EnsureSafeDestination(Directory(Success(n)), allowOverwrite).Pass?
  {
    if nodes == map[] {
      assert TopLevel(nodes) == {};
    }
  }

  /** A destination with an entry at its top level is refused unless
      overwriting is allowed. */
  lemma {:induction false} OccupiedRefused(nodes: map<string, Node>, n: nat, p: string)
    requires p in nodes && '/' !in p
    requires n == |TopLevel(nodes)|
    ensures EnsureSafeDestination(Directory(Success(n)), false) == Fail(NotEmptyError)
  {
    assert p in TopLevel(nodes);
  }
}

/**
 * The two input validators of the `new` command: a project name must be
 * non-blank and free of path separators and line breaks; a module path must
 * have the shape `segment(/segment)+` over the characters `[a-zA-Z0-9_.-]`.
 */
module ValidateInputs {
  import opened Wrappers
  import opened Text

  const ProjectNameRequired := "project name is required"
  const ProjectNameSeparators := "project name must not contain path separators"
  const ModulePathRequired := "module path is required"
  const ModulePathShape := "module path must look like domain.com/owner/name"

  /** The bytes a project name must not hold: both path separators and
      tab, carriage return and line feed. */
  predicate IsForbiddenNameChar(c: char) {
    c == '/' || c == '\\' || c == '\t' || c == '\r' || c == '\n'
  }

  /** strings.ContainsAny. */
  predicate ContainsAny(s: string, chars: string) {
    exists i | 0 <= i < |s| :: s[i] in chars
  }

  /** validate.ProjectName. */
  function ProjectName(name: string): (r: Outcome<string>)
    ensures r == Fail(ProjectNameRequired) <==> AllSpace(name)
    ensures r == Fail(ProjectNameSeparators) <==>
              !AllSpace(name) && exists i | 0 <= i < |name| :: IsForbiddenNameChar(name[i])
    ensures r.Pass? <==>
              !AllSpace(name) && forall i | 0 <= i < |name| :: !IsForbiddenNameChar(name[i])
  {
    TrimSpaceEmptyIff(name);
    if TrimSpace(name) == "" then Fail(ProjectNameRequired)
    else if ContainsAny(name, "/\\") || ContainsAny(name, "\t\r\n") then Fail(ProjectNameSeparators)
    else Pass
  }

  /** An accepted project name is a single path element. */
  lemma {:induction false} ValidProjectNameIsOneElement(name: string)
    requires ProjectName(name).Pass?
    ensures name != "" && '/' !in name
    ensures Split(name, '/') == [name]
  {
    SplitNoSep(name, '/');
  }

  /** The rejected cases of the validator's table test. */
  lemma {:induction false} ProjectNameRejects()
    ensures ProjectName("").Fail?
    ensures ProjectName("my/app").Fail?
    ensures ProjectName("my\\app").Fail?
    ensures ProjectName("my\napp").Fail?
  {
    assert AllSpace("");
    assert IsForbiddenNameChar("my/app"[2]);
    NameRejected("my/app");
    assert IsForbiddenNameChar("my\\app"[2]);
    NameRejected("my\\app");
    assert IsForbiddenNameChar("my\napp"[2]);
    NameRejected("my\napp");
  }

  /** The accepted cases of the validator's table test. */
  lemma {:induction false} ProjectNameAccepts()
    ensures ProjectName("myapp").Pass?
    ensures ProjectName("admin").Pass?
  {
    NameAccepted("myapp");
    NameAccepted("admin");
  }

  /** A '/', '\\', tab, CR or LF anywhere refuses the name: as blank when
      nothing else is in it, otherwise for holding a separator. */
  lemma {:induction false} NameRejected(n: string)
    requires exists i | 0 <= i < |n| :: IsForbiddenNameChar(n[i])
    ensures ProjectName(n).Fail?
    ensures !AllSpace(n) ==> ProjectName(n) == Fail(ProjectNameSeparators)
  {
  }

  /** The dot names are accepted although they are not names of a new
      directory: "." and ".." pass the validator. */
  lemma {:induction false} DotNamesAccepted()
    ensures ProjectName(".").Pass? && ProjectName("..").Pass?
  {
    assert ProjectName(".").Pass? by { NameAccepted("."); }
    assert ProjectName("..").Pass? by { NameAccepted(".."); }
  }

  lemma {:induction false} NameAccepted(n: string)
    requires n != "" && !IsSpace(n[0])
    requires forall i | 0 <= i < |n| :: n[i] == '.' || 'a' <= n[i] <= 'z'
    ensures ProjectName(n).Pass?
  {
  }

  // ------------------------------------------------------------ module path

  /** The class `[a-zA-Z0-9_.-]`. */
  predicate IsModuleChar(c: char) {
    ('a' <= c <= 'z') || ('A' <= c <= 'Z') || ('0' <= c <= '9') || c == '_' || c == '.' || c == '-'
  }

  predicate AllModuleChars(s: string) {
    forall i | 0 <= i < |s| :: IsModuleChar(s[i])
  }

  /** The shape the pattern describes, stated on the '/'-separated pieces:
      at least two pieces, none empty, each made of module characters. */
  predicate ModuleShaped(s: string) {
    var parts := Split(s, '/');
    |parts| >= 2 && forall i | 0 <= i < |parts| :: parts[i] != "" && AllModuleChars(parts[i])
  }

  /** The automaton of `^[a-zA-Z0-9_.-]+(/[a-zA-Z0-9_.-]+)+$`.  States:
      0 start, 1 inside the first segment, 2 just after a '/', 3 inside a later
      segment (accepting), 4 dead. */
  function PatternStep(q: nat, c: char): nat {
    if q == 4 then 4
    else if IsModuleChar(c) then (if q <= 1 then 1 else 3)
    else if c == '/' then (if q == 1 || q == 3 then 2 else 4)
    else 4
  }

  function PatternRun(q: nat, s: string): nat
    decreases |s|
  {
    if s == "" then q else PatternRun(PatternStep(q, s[0]), s[1..])
  }

  predicate MatchesModulePattern(s: string) {
    PatternRun(0, s) == 3
  }

  /** Per-state meaning of the automaton, on the pieces of the rest of the input. */
  predicate StateMeaning(q: nat, s: string) {
    var parts := Split(s, '/');
    var tailOk := forall i | 1 <= i < |parts| :: parts[i] != "" && AllModuleChars(parts[i]);
    match q
    case 0 => |parts| >= 2 && parts[0] != "" && AllModuleChars(parts[0]) && tailOk
    case 1 => |parts| >= 2 && AllModuleChars(parts[0]) && tailOk
    case 2 => parts[0] != "" && AllModuleChars(parts[0]) && tailOk
    case 3 => AllModuleChars(parts[0]) && tailOk
    case _ => false
  }

  lemma {:induction false} AllModuleCharsCons(c: char, x: string)
    ensures AllModuleChars([c] + x) <==> IsModuleChar(c) && AllModuleChars(x)
  {
    assert ([c] + x)[0] == c;
    assert forall i | 1 <= i < |[c] + x| :: ([c] + x)[i] == x[i - 1];
    assert forall i | 0 <= i < |x| :: x[i] == ([c] + x)[i + 1];
  }

  lemma {:induction false} PatternRunMeaning(q: nat, s: string)
    requires q <= 4
    ensures PatternRun(q, s) == 3 <==> StateMeaning(q, s)
    decreases |s|
  {
    if s == "" {
    } else if q == 4 {
      DeadStays(s);
    } else {
      var c, t := s[0], s[1..];
      PatternRunMeaning(PatternStep(q, c), t);
      assert s == [c] + t;
      if c == '/' {
        SlashMeaning(q, t);
      } else {
        CharMeaning(q, c, t);
        if !IsModuleChar(c) {
          DeadStays(t);
        }
      }
    }
  }

  /** A '/' closes the current piece. */
  lemma {:induction false} SlashMeaning(q: nat, t: string)
    requires q <= 3
    ensures StateMeaning(q, ['/'] + t) <==> StateMeaning(PatternStep(q, '/'), t)
  {
    var rest := Split(t, '/');
    var parts := Split(['/'] + t, '/');
    assert ['/'] + t != "" && (['/'] + t)[0] == '/' && (['/'] + t)[1..] == t;
    assert parts == [""] + rest;
    assert forall i | 1 <= i < |parts| :: parts[i] == rest[i - 1];
    assert forall i | 0 <= i < |rest| :: rest[i] == parts[i + 1];
  }

  /** Any other byte joins the current piece. */
  lemma {:induction false} CharMeaning(q: nat, c: char, t: string)
    requires q <= 3 && c != '/'
    ensures IsModuleChar(c) ==> (StateMeaning(q, [c] + t) <==> StateMeaning(PatternStep(q, c), t))
    ensures !IsModuleChar(c) ==> !StateMeaning(q, [c] + t) && PatternStep(q, c) == 4
  {
    var rest := Split(t, '/');
    var parts := Split([c] + t, '/');
    assert [c] + t != "" && ([c] + t)[0] == c && ([c] + t)[1..] == t;
    assert parts == [[c] + rest[0]] + rest[1..];
    AllModuleCharsCons(c, rest[0]);
    assert forall i | 1 <= i < |parts| :: parts[i] == rest[i];
  }

  /** A match starts with a module character. */
  lemma {:induction false} MatchStartsWithModuleChar(s: string)
    ensures MatchesModulePattern(s) ==> s != "" && IsModuleChar(s[0])
  {
    if s != "" && !IsModuleChar(s[0]) {
      DeadStays(s[1..]);
    }
  }

  lemma {:induction false} DeadStays(s: string)
    ensures PatternRun(4, s) == 4
    decreases |s|
  {
    if s != "" { DeadStays(s[1..]); }
  }

  /** The pattern accepts exactly the module-shaped paths. */
  lemma {:induction false} PatternIsModuleShape(s: string)
    ensures MatchesModulePattern(s) <==> ModuleShaped(s)
  {
    PatternRunMeaning(0, s);
  }

  /** validate.ModulePath. */
  function ModulePath(path: string): (r: Outcome<string>)
    ensures r == Fail(ModulePathRequired) <==> AllSpace(path)
    ensures r.Pass? <==> ModuleShaped(path)
    ensures r.Fail? ==> r.error in {ModulePathRequired, ModulePathShape}
  {
    TrimSpaceEmptyIff(path);
    PatternIsModuleShape(path);
    MatchStartsWithModuleChar(path);
    if TrimSpace(path) == "" then Fail(ModulePathRequired)
    else if !MatchesModulePattern(path) then Fail(ModulePathShape)
    else Pass
  }

  /** Three non-empty segments of module characters joined by '/' pass. */
  lemma {:induction false} ThreeSegmentsAccepted(a: string, b: string, c: string)
    requires a != "" && b != "" && c != ""
    requires AllModuleChars(a) && AllModuleChars(b) && AllModuleChars(c)
    ensures ModulePath(a + "/" + b + "/" + c).Pass?
  {
    var parts := [a, b, c];
    var s := a + "/" + b + "/" + c;
    assert '/' !in a && '/' !in b && '/' !in c;
    SplitJoin(parts, '/');
    JoinThree(a, b, c, "/");
    assert Split(s, '/') == parts;
    assert ModuleShaped(s);
  }

  /** A single segment is refused with the shape message. */
  lemma {:induction false} OneSegmentRejected(a: string)
    requires a != "" && AllModuleChars(a)
    ensures ModulePath(a) == Fail(ModulePathShape)
  {
    assert '/' !in a;
    SplitNoSep(a, '/');
    assert !IsSpace(a[0]);
  }

  lemma {:induction false} ExampleModuleSpelling()
    ensures "github.com" + "/" + "acme" + "/" + "foo" == "github.com/acme/foo"
  {
  }

  /** The cases of the validator's table test. */
  lemma {:induction false} ModulePathExamples()
    ensures ModulePath("") == Fail(ModulePathRequired)
    ensures ModulePath("github.com/acme/foo").Pass?
    ensures ModulePath("github.com") == Fail(ModulePathShape)
  {
    assert AllSpace("");
    ThreeSegmentsAccepted("github.com", "acme", "foo");
    ExampleModuleSpelling();
    OneSegmentRejected("github.com");
  }
}

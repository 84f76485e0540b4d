/**
 * Token substitution in scaffolded files.  `ReplaceTokens` as written runs
 * one `strings.ReplaceAll` per map entry, in whatever order Go's map range
 * produces; `FoldReplace` is that fold once the order is fixed.  Because
 * one of the scaffold's keys ("go-kickstart") occurs inside another
 * (the template module path), the outcome depends on that order.
 * `Substitute` is the order-free replacement the scaffold evidently
 * intends: one left-to-right pass that, at each position, replaces the
 * longest key found there.
 */
module Templating {
  import opened Wrappers
  import opened Text
  import opened Collections

  // ------------------------------------------------------- as written

  /** The replacements applied in the order `order`, first entry first. */
  function FoldReplace(s: string, order: seq<string>, m: map<string, string>): string
    requires forall i | 0 <= i < |order| :: order[i] in m
    decreases |order|
  {
    if order == [] then s
    else
      var k := order[|order| - 1];
      ReplaceAll(FoldReplace(s, order[..|order| - 1], m), k, m[k])
  }

  /** scaffold.ReplaceTokens: a loop over the map that rewrites `out` once
      per key, visiting the keys in an unspecified order, reported as `order`. */
  method ReplaceTokens(input: string, replacements: map<string, string>)
    returns (out: string, ghost order: seq<string>)
    ensures Enumerates(order, replacements.Keys)
    ensures forall i | 0 <= i < |order| :: order[i] in replacements
    ensures out == FoldReplace(input, order, replacements)
  {
    out := input;
    order := [];
    var remaining := replacements.Keys;
    while remaining != {}
      invariant remaining <= replacements.Keys
      invariant Enumerates(order, replacements.Keys - remaining)
      invariant forall i | 0 <= i < |order| :: order[i] in replacements
      invariant out == FoldReplace(input, order, replacements)
      decreases |remaining|
    {
      var key :| key in remaining;
      EnumerationSnoc(order, replacements.Keys - remaining, key);
      assert (replacements.Keys - remaining) + {key} == replacements.Keys - (remaining - {key});
      ghost var before := order;
      out := ReplaceAll(out, key, replacements[key]);
      order := order + [key];
      assert order[..|order| - 1] == before;
      remaining := remaining - {key};
    }
  }

  /** With no replacements the input comes back unchanged. */
  lemma {:induction false} FoldReplaceEmpty(s: string, order: seq<string>, m: map<string, string>)
    requires m == map[]
    requires Enumerates(order, m.Keys)
    ensures FoldReplace(s, order, m) == s
  {
    EnumerationLength(order, m.Keys);
  }

  /** When no (non-empty) key occurs in the input, no step changes it,
      whatever the order. */
  lemma {:induction false} FoldReplaceAbsent(s: string, order: seq<string>, m: map<string, string>)
    requires forall i | 0 <= i < |order| :: order[i] in m
    requires forall k | k in m :: k != "" && !Contains(s, k)
    ensures FoldReplace(s, order, m) == s
    decreases |order|
  {
    if order != [] {
      FoldReplaceAbsent(s, order[..|order| - 1], m);
      ReplaceAllAbsent(s, order[|order| - 1], m[order[|order| - 1]]);
    }
  }

  /** A whole key is replaced by its value. */
  lemma {:induction false} ReplaceAllWhole(k: string, v: string)
    requires k != ""
    ensures ReplaceAll(k, k, v) == v
  {
    assert k[..|k|] == k;
    assert k[|k|..] == "";
  }

  /** A single `{{PROJECT_NAME}}` mapping turns the token into its value. */
  lemma {:induction false} ProjectNameTokenReplaced(order: seq<string>, name: string)
    requires Enumerates(order, map[ProjectNameToken := name].Keys)
    ensures FoldReplace(ProjectNameToken, order, map[ProjectNameToken := name]) == name
  {
    var m := map[ProjectNameToken := name];
    assert m.Keys == {ProjectNameToken};
    EnumerationOfSingleton(order, ProjectNameToken);
    assert order[..0] == [];
    ReplaceAllWhole(ProjectNameToken, name);
  }

  /** Keys that do not occur leave the text alone, in any order. */
  lemma {:induction false} FoldSkipsAbsent(s: string, order: seq<string>, m: map<string, string>)
    requires forall i | 0 <= i < |order| :: order[i] in m && order[i] != "" && !Contains(s, order[i])
    ensures FoldReplace(s, order, m) == s
    decreases |order|
  {
    if order != [] {
      FoldSkipsAbsent(s, order[..|order| - 1], m);
      ReplaceAllAbsent(s, order[|order| - 1], m[order[|order| - 1]]);
    }
  }

  /** A fold in which only the `j`-th key finds anything: the keys before it
      are absent from the input, the keys after it absent from its result. */
  lemma {:induction false} FoldOneHit(s: string, order: seq<string>, m: map<string, string>, j: nat, t: string)
    requires forall i | 0 <= i < |order| :: order[i] in m && order[i] != ""
    requires j < |order|
    requires forall i | 0 <= i < j :: !Contains(s, order[i])
    requires ReplaceAll(s, order[j], m[order[j]]) == t
    requires forall i | j < i < |order| :: !Contains(t, order[i])
    ensures FoldReplace(s, order, m) == t
    decreases |order|
  {
    var init := order[..|order| - 1];
    if j == |order| - 1 {
      FoldSkipsAbsent(s, init, m);
    } else {
      FoldOneHit(s, init, m, j, t);
      ReplaceAllAbsent(t, order[|order| - 1], m[order[|order| - 1]]);
    }
  }

  /** Whatever order the map is ranged in, a text that is just the project
      name token becomes the project name, provided the name holds none of
      the other three keys (which later steps would rewrite again). */
  lemma {:induction false} ProjectNameTokenFold(name: string, path: string, order: seq<string>)
    requires Enumerates(order, ScaffoldReplacements(name, path).Keys)
    requires !Contains(name, ModulePathToken) && !Contains(name, TemplateModulePath)
             && !Contains(name, TemplateProjectName)
    ensures FoldReplace(ProjectNameToken, order, ScaffoldReplacements(name, path)) == name
  {
    var m := ScaffoldReplacements(name, path);
    KeysNonEmpty(name, path);
    var j :| 0 <= j < |order| && order[j] == ProjectNameToken;
    TokenLacksOtherKeys();
    forall i | 0 <= i < |order| && i != j
      ensures order[i] in {ModulePathToken, TemplateModulePath, TemplateProjectName}
    {
      assert order[i] != order[j];
    }
    ReplaceAllWhole(ProjectNameToken, name);
    FoldOneHit(ProjectNameToken, order, m, j, name);
  }

  lemma {:induction false} KeysNonEmpty(name: string, path: string)
    ensures forall k | k in ScaffoldReplacements(name, path) :: k != ""
  {
    assert |ProjectNameToken| == 16 && |ModulePathToken| == 15;
    assert |TemplateModulePath| == 41 && |TemplateProjectName| == 12;
  }

  /** The project name token holds none of the other keys. */
  lemma {:induction false} TokenLacksOtherKeys()
    ensures !Contains(ProjectNameToken, ModulePathToken) && !Contains(ProjectNameToken, TemplateModulePath)
            && !Contains(ProjectNameToken, TemplateProjectName)
  {
    assert ModulePathToken[4] == 'D' && TemplateModulePath[0] == 'g' && TemplateProjectName[0] == 'g';
    assert 'D' !in ProjectNameToken && 'g' !in ProjectNameToken;
    AbsentByByte(ProjectNameToken, ModulePathToken, 'D');
    AbsentByByte(ProjectNameToken, TemplateModulePath, 'g');
    AbsentByByte(ProjectNameToken, TemplateProjectName, 'g');
  }

  /** Text before `q` in which no occurrence of `k` starts is passed over. */
  lemma {:induction false} ReplaceAllSkips(p: string, q: string, k: string, v: string)
    requires k != ""
    requires forall i | 0 <= i < |p| :: !HasPrefix((p + q)[i..], k)
    ensures ReplaceAll(p + q, k, v) == p + ReplaceAll(q, k, v)
    decreases |p|
  {
    var s := p + q;
    if p == "" {
      assert s == q;
    } else {
      var t := p[1..] + q;
      assert s[1..] == t;
      assert !HasPrefix(s[0..], k);
      assert s[0..] == s;
      assert forall i | 0 <= i < |p[1..]| :: t[i..] == s[i + 1..];
      ReplaceAllSkips(p[1..], q, k, v);
      var r := ReplaceAll(q, k, v);
      StepOverByte(s, k, v);
      assert ReplaceAll(s, k, v) == [s[0]] + (p[1..] + r);
      assert [p[0]] + (p[1..] + r) == ([p[0]] + p[1..]) + r;
      assert [p[0]] + p[1..] == p;
    }
  }

  /** ReplaceAll passes over a first byte where no occurrence starts. */
  lemma {:induction false} StepOverByte(s: string, k: string, v: string)
    requires k != "" && s != "" && !HasPrefix(s, k)
    ensures ReplaceAll(s, k, v) == [s[0]] + ReplaceAll(s[1..], k, v)
  {
    if |s| < |k| {
      ReplaceAllShort(s[1..], k, v);
      assert [s[0]] + s[1..] == s;
    }
  }

  lemma {:induction false} ReplaceAllShort(s: string, k: string, v: string)
    requires k != "" && |s| < |k|
    ensures ReplaceAll(s, k, v) == s
  {
  }

  // ------------------------------------------------------- the scaffold's keys

  const ProjectNameToken := "{{PROJECT_NAME}}"
  const ModulePathToken := "{{MODULE_PATH}}"
  const TemplateModulePath := "github.com/jeheskielSunloy77/go-kickstart"
  const TemplateProjectName := "go-kickstart"
  /** The template module path is the owner prefix followed by the template
      project name. */
  const TemplateOwnerPrefix := "github.com/jeheskielSunloy77/"

  /** The four replacements scaffold.ScaffoldFromFS builds. */
  function ScaffoldReplacements(projectName: string, modulePath: string): (m: map<string, string>)
    ensures m.Keys == {ProjectNameToken, ModulePathToken, TemplateModulePath, TemplateProjectName}
    ensures m[ProjectNameToken] == projectName && m[TemplateProjectName] == projectName
    ensures m[ModulePathToken] == modulePath && m[TemplateModulePath] == modulePath
  {
    map[ProjectNameToken := projectName, ModulePathToken := modulePath,
        TemplateModulePath := modulePath, TemplateProjectName := projectName]
  }

  lemma {:induction false} TemplatePathSpelling()
    ensures TemplateModulePath == TemplateOwnerPrefix + TemplateProjectName
  {
  }

  /** No occurrence of the template project name starts inside the owner
      prefix of the template module path. */
  lemma {:induction false} OwnerPrefixHidesProjectName()
    ensures forall i | 0 <= i < |TemplateOwnerPrefix| ::
              !HasPrefix((TemplateOwnerPrefix + TemplateProjectName)[i..], TemplateProjectName)
  {
    var s := TemplateOwnerPrefix + TemplateProjectName;
    assert '-' !in TemplateOwnerPrefix;
    assert TemplateProjectName[0] != '-' && TemplateProjectName[1] != '-' && TemplateProjectName[2] == '-';
    forall i | 0 <= i < |TemplateOwnerPrefix|
      ensures !HasPrefix(s[i..], TemplateProjectName)
    {
      assert s[i + 2] != '-' by {
        if i + 2 < |TemplateOwnerPrefix| {
          assert s[i + 2] == TemplateOwnerPrefix[i + 2];
        } else {
          assert s[i + 2] == TemplateProjectName[i + 2 - |TemplateOwnerPrefix|];
        }
      }
      assert s[i..][..|TemplateProjectName|][2] == s[i + 2];
    }
  }

  /** A byte of `k` that `s` lacks keeps `k` out of `s`. */
  lemma {:induction false} AbsentByByte(s: string, k: string, c: char)
    requires c in k && c !in s
    ensures !Contains(s, k)
  {
    forall i | 0 <= i <= |s| ensures !HasPrefix(s[i..], k) {
      assert c !in s[i..];
    }
  }

  /** The two visiting orders at issue: the template module path before
      the template project name, and the other way round. */
  const PathFirst := [TemplateModulePath, TemplateProjectName, ProjectNameToken, ModulePathToken]
  const NameFirst := [TemplateProjectName, TemplateModulePath, ProjectNameToken, ModulePathToken]

  lemma {:induction false} BothOrdersEnumerate(name: string, path: string)
    ensures Enumerates(PathFirst, ScaffoldReplacements(name, path).Keys)
    ensures Enumerates(NameFirst, ScaffoldReplacements(name, path).Keys)
  {
    assert |ProjectNameToken| == 16 && |ModulePathToken| == 15;
    assert |TemplateModulePath| == 41 && |TemplateProjectName| == 12;
  }

  /** The template module path, as `ReplaceTokens` rewrites it under the two
      orders: visiting the full path first gives the configured module path;
      visiting the project name first rewrites only its tail and leaves the
      template's owner in place. */
  lemma {:induction false} ReplaceTokensOrderMatters(name: string, path: string)
    requires !Contains(path, TemplateProjectName) && !Contains(path, ProjectNameToken) && !Contains(path, ModulePathToken)
    requires var t := TemplateOwnerPrefix + name;
             !Contains(t, TemplateModulePath) && !Contains(t, ProjectNameToken) && !Contains(t, ModulePathToken)
    ensures FoldReplace(TemplateModulePath, PathFirst, ScaffoldReplacements(name, path)) == path
    ensures FoldReplace(TemplateModulePath, NameFirst, ScaffoldReplacements(name, path)) == TemplateOwnerPrefix + name
  {
    PathFirstFold(name, path);
    NameFirstFold(name, path);
  }

  lemma {:induction false} PathFirstFold(name: string, path: string)
    requires !Contains(path, TemplateProjectName) && !Contains(path, ProjectNameToken) && !Contains(path, ModulePathToken)
    ensures FoldReplace(TemplateModulePath, PathFirst, ScaffoldReplacements(name, path)) == path
  {
    var m := ScaffoldReplacements(name, path);
    ReplaceAllWhole(TemplateModulePath, path);
    assert m[PathFirst[0]] == path;
    FoldFour(TemplateModulePath, PathFirst, m, path);
  }

  lemma {:induction false} NameFirstFold(name: string, path: string)
    requires var t := TemplateOwnerPrefix + name;
             !Contains(t, TemplateModulePath) && !Contains(t, ProjectNameToken) && !Contains(t, ModulePathToken)
    ensures FoldReplace(TemplateModulePath, NameFirst, ScaffoldReplacements(name, path)) == TemplateOwnerPrefix + name
  {
    var m := ScaffoldReplacements(name, path);
    NameFirstStep(name);
    NameFirstKeys(m, name, path);
    FoldFour(TemplateModulePath, NameFirst, m, TemplateOwnerPrefix + name);
  }

  lemma {:induction false} NameFirstKeys(m: map<string, string>, name: string, path: string)
    requires m == ScaffoldReplacements(name, path)
    ensures forall i | 0 <= i < 4 :: NameFirst[i] in m && NameFirst[i] != ""
    ensures NameFirst[0] == TemplateProjectName && m[NameFirst[0]] == name
    ensures NameFirst[1] == TemplateModulePath && NameFirst[2] == ProjectNameToken && NameFirst[3] == ModulePathToken
  {
    assert |ProjectNameToken| == 16 && |ModulePathToken| == 15;
    assert |TemplateModulePath| == 41 && |TemplateProjectName| == 12;
  }

  /** Replacing the template project name inside the template module path
      rewrites only its tail. */
  lemma {:induction false} NameFirstStep(name: string)
    ensures ReplaceAll(TemplateModulePath, TemplateProjectName, name) == TemplateOwnerPrefix + name
  {
    TemplatePathSpelling();
    OwnerPrefixHidesProjectName();
    ReplaceAllSkips(TemplateOwnerPrefix, TemplateProjectName, TemplateProjectName, name);
    ReplaceAllWhole(TemplateProjectName, name);
  }

  /** Four replacements of which the first yields `t` and the other three
      find nothing in `t`. */
  lemma {:induction false} FoldFour(s: string, order: seq<string>, m: map<string, string>, t: string)
    requires |order| == 4 && forall i | 0 <= i < 4 :: order[i] in m && order[i] != ""
    requires ReplaceAll(s, order[0], m[order[0]]) == t
    requires forall i | 1 <= i < 4 :: !Contains(t, order[i])
    ensures FoldReplace(s, order, m) == t
  {
    assert order[..1][..0] == [];
    assert FoldReplace(s, order[..1], m) == t;
    assert order[..2][..1] == order[..1];
    ReplaceAllAbsent(t, order[1], m[order[1]]);
    assert FoldReplace(s, order[..2], m) == t;
    assert order[..3][..2] == order[..2];
    ReplaceAllAbsent(t, order[2], m[order[2]]);
    assert FoldReplace(s, order[..3], m) == t;
    assert order[..3] == order[..|order| - 1];
    ReplaceAllAbsent(t, order[3], m[order[3]]);
  }

  /** For project "demo" with module "github.com/acme/demo", the two orders
      give "github.com/acme/demo" and "github.com/jeheskielSunloy77/demo". */
  lemma {:induction false} ReplaceTokensOrderExample(name: string, path: string)
    requires name == "demo" && path == "github.com/acme/demo"
    ensures FoldReplace(TemplateModulePath, PathFirst, ScaffoldReplacements(name, path)) == path
    ensures FoldReplace(TemplateModulePath, NameFirst, ScaffoldReplacements(name, path)) == TemplateOwnerPrefix + name
    ensures path != TemplateOwnerPrefix + name
  {
    ExamplePathAbsences(path);
    ExampleOwnerAbsences(name, TemplateOwnerPrefix + name);
    ReplaceTokensOrderMatters(name, path);
    assert |path| != |TemplateOwnerPrefix + name|;
  }

  lemma {:induction false} ExamplePathAbsences(path: string)
    requires path == "github.com/acme/demo"
    ensures !Contains(path, TemplateProjectName) && !Contains(path, ProjectNameToken) && !Contains(path, ModulePathToken)
  {
    assert TemplateProjectName[3] == 'k';
    assert ProjectNameToken[0] == '{' && ModulePathToken[0] == '{';
    AbsentByByte(path, TemplateProjectName, 'k');
    AbsentByByte(path, ProjectNameToken, '{');
    AbsentByByte(path, ModulePathToken, '{');
  }

  lemma {:induction false} ExampleOwnerAbsences(name: string, t: string)
    requires name == "demo" && t == TemplateOwnerPrefix + name
    ensures !Contains(t, TemplateModulePath) && !Contains(t, ProjectNameToken) && !Contains(t, ModulePathToken)
  {
    OwnerLacks(name, t);
    assert TemplateModulePath[31] == '-';
    assert ProjectNameToken[0] == '{' && ModulePathToken[0] == '{';
    AbsentByByte(t, TemplateModulePath, '-');
    AbsentByByte(t, ProjectNameToken, '{');
    AbsentByByte(t, ModulePathToken, '{');
  }

  lemma {:induction false} OwnerLacks(name: string, t: string)
    requires name == "demo" && t == TemplateOwnerPrefix + name
    ensures '-' !in t && '{' !in t
  {
    assert '-' !in TemplateOwnerPrefix && '{' !in TemplateOwnerPrefix;
    assert '-' !in name && '{' !in name;
    NotInConcat(TemplateOwnerPrefix, name, '-');
    NotInConcat(TemplateOwnerPrefix, name, '{');
  }

  lemma {:induction false} NotInConcat(a: string, b: string, c: char)
    requires c !in a && c !in b
    ensures c !in a + b
  {
  }

  // ------------------------------------------------------- corrected

  /** The longest non-empty key of `keys` that `s` starts with. */
  function LongestKey(s: string, keys: seq<string>): (r: Option<string>)
    ensures r.Some? ==> r.value in keys && r.value != "" && HasPrefix(s, r.value)
    ensures r.Some? ==> forall j | 0 <= j < |keys| && keys[j] != "" && HasPrefix(s, keys[j]) :: |keys[j]| <= |r.value|
    ensures r.None? ==> forall j | 0 <= j < |keys| :: keys[j] == "" || !HasPrefix(s, keys[j])
  {
    if keys == [] then None
    else
      var rest := LongestKey(s, keys[1..]);
      var k := keys[0];
      assert forall j | 1 <= j < |keys| :: keys[j] == keys[1..][j - 1];
      if k != "" && HasPrefix(s, k) && (rest.None? || |k| > |rest.value|) then Some(k) else rest
  }

  /** Two listings of the same keys find the same longest key: two prefixes
      of one string with equal length are equal. */
  lemma {:induction false} LongestKeyOrderFree(s: string, ks1: seq<string>, ks2: seq<string>)
    requires forall k :: k in ks1 <==> k in ks2
    ensures LongestKey(s, ks1) == LongestKey(s, ks2)
  {
    var r1, r2 := LongestKey(s, ks1), LongestKey(s, ks2);
    if r1.Some? {
      assert r1.value in ks2;
    }
    if r2.Some? {
      assert r2.value in ks1;
    }
    if r1.Some? && r2.Some? {
      assert r1.value == s[..|r1.value|] && r2.value == s[..|r2.value|];
    }
  }

  /** The corrected substitution: one left-to-right pass replacing, at each
      position, the longest key that starts there; other bytes are copied. */
  function Substitute(s: string, m: map<string, string>, keys: seq<string>): string
    requires forall i | 0 <= i < |keys| :: keys[i] in m
    decreases |s|
  {
    if s == "" then ""
    else
      match LongestKey(s, keys)
      case Some(k) => m[k] + Substitute(s[|k|..], m, keys)
      case None => [s[0]] + Substitute(s[1..], m, keys)
  }

  /** The result does not depend on the order in which the keys are listed. */
  lemma {:induction false} SubstituteOrderFree(s: string, m: map<string, string>, ks1: seq<string>, ks2: seq<string>)
    requires forall i | 0 <= i < |ks1| :: ks1[i] in m
    requires forall k :: k in ks1 <==> k in ks2
    ensures forall i | 0 <= i < |ks2| :: ks2[i] in m
    ensures Substitute(s, m, ks1) == Substitute(s, m, ks2)
    decreases |s|
  {
    assert forall i | 0 <= i < |ks2| :: ks2[i] in ks1;
    if s != "" {
      LongestKeyOrderFree(s, ks1, ks2);
      match LongestKey(s, ks1)
      case Some(k) => SubstituteOrderFree(s[|k|..], m, ks1, ks2);
      case None => SubstituteOrderFree(s[1..], m, ks1, ks2);
    }
  }

  /** Text in which no key occurs is left as it is. */
  lemma {:induction false} SubstituteAbsent(s: string, m: map<string, string>, keys: seq<string>)
    requires forall i | 0 <= i < |keys| :: keys[i] in m
    requires forall i | 0 <= i < |keys| :: keys[i] == "" || !Contains(s, keys[i])
    ensures Substitute(s, m, keys) == s
    decreases |s|
  {
    if s != "" {
      assert s[0..] == s;
      assert LongestKey(s, keys) == None;
      forall i | 0 <= i < |keys| && keys[i] != "" ensures !Contains(s[1..], keys[i]) {
        forall j | 0 <= j <= |s[1..]| ensures !HasPrefix(s[1..][j..], keys[i]) {
          assert s[1..][j..] == s[j + 1..];
        }
      }
      SubstituteAbsent(s[1..], m, keys);
      assert [s[0]] + s[1..] == s;
    }
  }

  /** A whole key becomes its value. */
  lemma {:induction false} SubstituteWholeKey(k: string, m: map<string, string>, keys: seq<string>)
    requires forall i | 0 <= i < |keys| :: keys[i] in m
    requires k in keys && k != ""
    ensures Substitute(k, m, keys) == m[k]
  {
    assert HasPrefix(k, k);
    var r := LongestKey(k, keys);
    assert r.value == k;
    assert k[|k|..] == "";
  }

  /** Under the corrected substitution the scaffold's four keys become the
      configured values whatever order the map yields its keys in; in
      particular the template module path becomes the configured module path. */
  lemma {:induction false} SubstituteScaffoldKeys(name: string, path: string, keys: seq<string>)
    requires Enumerates(keys, ScaffoldReplacements(name, path).Keys)
    ensures forall i | 0 <= i < |keys| :: keys[i] in ScaffoldReplacements(name, path)
    ensures Substitute(TemplateModulePath, ScaffoldReplacements(name, path), keys) == path
    ensures Substitute(TemplateProjectName, ScaffoldReplacements(name, path), keys) == name
    ensures Substitute(ProjectNameToken, ScaffoldReplacements(name, path), keys) == name
    ensures Substitute(ModulePathToken, ScaffoldReplacements(name, path), keys) == path
  {
    var m := ScaffoldReplacements(name, path);
    SubstituteWholeKey(TemplateModulePath, m, keys);
    SubstituteWholeKey(TemplateProjectName, m, keys);
    SubstituteWholeKey(ProjectNameToken, m, keys);
    SubstituteWholeKey(ModulePathToken, m, keys);
  }

  /** The keys of a map, in the order a range over it visits them. */
  method KeyListing(m: map<string, string>) returns (keys: seq<string>)
    ensures Enumerates(keys, m.Keys)
    ensures forall i | 0 <= i < |keys| :: keys[i] in m
  {
    keys := [];
    var remaining := m.Keys;
    while remaining != {}
      invariant remaining <= m.Keys
      invariant Enumerates(keys, m.Keys - remaining)
      decreases |remaining|
    {
      var key :| key in remaining;
      EnumerationSnoc(keys, m.Keys - remaining, key);
      assert (m.Keys - remaining) + {key} == m.Keys - (remaining - {key});
      keys := keys + [key];
      remaining := remaining - {key};
    }
  }

  /** ReplaceTokens as intended: the longest-key-first substitution, whose
      result is the same for every order the map could be visited in. */
  method ReplaceTokensLongestFirst(input: string, replacements: map<string, string>) returns (out: string)
    ensures forall ks | Enumerates(ks, replacements.Keys) ::
              (forall i | 0 <= i < |ks| :: ks[i] in replacements) && out == Substitute(input, replacements, ks)
  {
    var keys := KeyListing(replacements);
    out := Substitute(input, replacements, keys);
    forall ks | Enumerates(ks, replacements.Keys)
      ensures (forall i | 0 <= i < |ks| :: ks[i] in replacements) && out == Substitute(input, replacements, ks)
    {
      SubstituteOrderFree(input, replacements, keys, ks);
    }
  }
}

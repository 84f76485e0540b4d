/**
 * The feature-flag skip rule: which template paths a configuration leaves
 * out.  Without the web app, `apps/web` and `packages/ui` and everything
 * below them are skipped; without Docker, every path that starts with
 * "docker-compose" is skipped.
 */
module Conditions {
  import opened Text
  import opened ScaffoldConfig

  /** `path` is `dir` itself or lies below it. */
  predicate AtOrBelow(path: string, dir: string) {
    path == dir || HasPrefix(path, dir + "/")
  }

  /** scaffold.ShouldSkipForConfig, applied to one path. */
  function SkipForConfig(cfg: ScaffoldConfiguration, path: string): (skip: bool)
    ensures skip <==> (!cfg.includeWeb && (AtOrBelow(path, "apps/web") || AtOrBelow(path, "packages/ui")))
                      || (!cfg.includeDocker && HasPrefix(path, "docker-compose"))
  {
    if !cfg.includeWeb && AtOrBelow(path, "apps/web") then true
    else if !cfg.includeWeb && AtOrBelow(path, "packages/ui") then true
    else if !cfg.includeDocker && HasPrefix(path, "docker-compose") then true
    else false
  }

  /** With both features enabled nothing is skipped. */
  lemma {:induction false} AllEnabledSkipsNothing(cfg: ScaffoldConfiguration, path: string)
    requires cfg.includeWeb && cfg.includeDocker
    ensures !SkipForConfig(cfg, path)
  {
  }

  /** Skipping is closed downwards: a path below a skipped directory is
      skipped too, so pruning the directory loses nothing the rule keeps. */
  lemma {:induction false} SkipClosedBelow(cfg: ScaffoldConfiguration, dir: string, rest: string)
    requires SkipForConfig(cfg, dir)
    ensures SkipForConfig(cfg, dir + "/" + rest)
  {
    var p := dir + "/" + rest;
    assert p[..|dir|] == dir;
    assert p[..|dir + "/"|] == dir + "/";
    forall pre | HasPrefix(dir, pre) ensures HasPrefix(p, pre) {
      assert p[..|pre|] == dir[..|pre|];
    }
  }

  /** Switching a feature off never brings a path back: a configuration with
      fewer features skips at least what a fuller one does. */
  lemma {:induction false} SkipMonotone(cfg1: ScaffoldConfiguration, cfg2: ScaffoldConfiguration, path: string)
    requires cfg2.includeWeb ==> cfg1.includeWeb
    requires cfg2.includeDocker ==> cfg1.includeDocker
    requires SkipForConfig(cfg1, path)
    ensures SkipForConfig(cfg2, path)
  {
  }

  /** The web rule needs the separator: a sibling such as "apps/webhooks"
      is kept whatever the configuration. */
  lemma {:induction false} WebSiblingKept(cfg: ScaffoldConfiguration, path: string)
    requires path == "apps/webhooks"
    ensures !SkipForConfig(cfg, path)
  {
    DiffersAt(path, "apps/web/", 8);
    DiffersAt(path, "packages/ui/", 0);
    DiffersAt(path, "packages/ui", 0);
    DiffersAt(path, "docker-compose", 0);
  }

  /** The Docker rule looks at the start of the whole path only: a compose
      file in a sub-directory is kept. */
  lemma {:induction false} NestedComposeKept(cfg: ScaffoldConfiguration, path: string)
    requires path == "x/docker-compose.yml"
    ensures !SkipForConfig(cfg, path)
  {
    DiffersAt(path, "apps/web/", 0);
    DiffersAt(path, "apps/web", 0);
    DiffersAt(path, "packages/ui/", 0);
    DiffersAt(path, "packages/ui", 0);
    DiffersAt(path, "docker-compose", 0);
  }

  /** The API's own files are never skipped. */
  lemma {:induction false} ApiMainKept(cfg: ScaffoldConfiguration, path: string)
    requires path == "apps/api/main.go"
    ensures !SkipForConfig(cfg, path)
  {
    DiffersAt(path, "apps/web/", 5);
    DiffersAt(path, "apps/web", 5);
    DiffersAt(path, "packages/ui/", 0);
    DiffersAt(path, "packages/ui", 0);
    DiffersAt(path, "docker-compose", 0);
  }

  /** A path that differs from `dir` at some byte is neither `dir` nor below it,
      nor does it start with `dir`. */
  lemma {:induction false} DiffersAt(path: string, dir: string, i: nat)
    requires i < |path| && i < |dir| && path[i] != dir[i]
    ensures !HasPrefix(path, dir) && path != dir && !AtOrBelow(path, dir)
  {
    if |dir| <= |path| {
      assert path[..|dir|][i] == path[i];
    }
    assert (dir + "/")[i] == dir[i];
    if |dir| + 1 <= |path| {
      assert path[..|dir| + 1][i] == path[i];
    }
  }

  /** The skipped paths of the rule's test, with web and Docker off. */
  lemma {:induction false} DisabledFeaturesSkipped(cfg: ScaffoldConfiguration, dir: string, rest: string)
    requires !cfg.includeWeb && !cfg.includeDocker
    ensures SkipForConfig(cfg, "apps/web") && SkipForConfig(cfg, "packages/ui")
    ensures SkipForConfig(cfg, "apps/web/" + rest) && SkipForConfig(cfg, "packages/ui/" + rest)
    ensures SkipForConfig(cfg, "docker-compose" + rest)
  {
    assert ("apps/web/" + rest)[..9] == "apps/web/";
    assert ("packages/ui/" + rest)[..12] == "packages/ui/";
    assert ("docker-compose" + rest)[..14] == "docker-compose";
  }
}

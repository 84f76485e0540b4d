# go-kickstart, modelled in Dafny

go-kickstart is a monorepo starter. It has two parts that this project models.

The first is the `go-kickstart new` command-line scaffolder (`apps/cli`). It
reads flags into a `ScaffoldConfiguration` and validates the project name and
Go module path. It resolves the destination directory and refuses a non-empty
one unless overwriting is allowed. It then walks an embedded template tree and
writes every file that is not skipped, with `.tmpl` stripped and its text run
through token replacement. Next it writes a `.env` next to every
`.env.example`, merging the example with per-file overrides derived from the
configuration. Last, it optionally runs `git init`.

The second part is the generated project's self-contained rules:
- the REST API's query-option normalisation, preload parsing and pagination arithmetic;
- the cache-aside resource repository and its in-memory soft-delete mock;
- the generic resource service and the user service on top of it;
- the user DTO mappings;
- the login-identifier handling, the auth service's decision chains and the two access middlewares;
- the web client's API-error helpers.

One Dafny module per source file:

| module | source |
|---|---|
| `ScaffoldConfig` | `apps/cli/internal/scaffold/config.go`, `defaults.go` |
| `Templating` | `apps/cli/internal/scaffold/templating.go` |
| `Conditions` | `apps/cli/internal/scaffold/conditions.go` |
| `Renderer`, `FileTree` | `apps/cli/internal/scaffold/renderer.go` and the destination filesystem it writes |
| `EnvMerge` | `apps/cli/internal/scaffold/env.go` |
| `EnvOverrides` | `apps/cli/internal/scaffold/env_overrides.go` |
| `Safety` | `apps/cli/internal/scaffold/safety.go` |
| `Scaffold` | `apps/cli/internal/scaffold/scaffold.go` |
| `ValidateInputs`, `ValidatePath` | `apps/cli/internal/validate/inputs.go`, `path.go` |
| `NewCommand` | `apps/cli/internal/cmd/new.go` (`configFromFlags`, `runNonInteractive`) |
| `QueryOptions`, `CachedRepository` | `apps/api/internal/repository/resource.go` |
| `MockRepository` | `apps/api/internal/repository/resource_mock.go` |
| `ApiUtils` | `apps/api/internal/lib/utils/utils.go` |
| `Pagination` | `apps/api/internal/handler/resource.go` |
| `ResourceServices` | `apps/api/internal/service/resource.go` |
| `UserService` | `apps/api/internal/service/user.go` |
| `UserModel` | `apps/api/internal/model/user.go` |
| `AuthHandler` | `apps/api/internal/handler/auth.go` |
| `AuthService` | `apps/api/internal/service/auth.go` |
| `Middleware` | `apps/api/internal/middleware/auth.go`, `authorization.go` |
| `ApiErrors` | `apps/web/src/lib/api-errors.ts` |
| `Wrappers`, `Text`, `Collections`, `ApiTypes` | shared helpers: Option/Result, Go's `strings` functions over ASCII, map enumerations, the API's value types |

## Conventions of the model

**Strings.** Strings are `seq<char>` with one character per byte, and the
model covers ASCII only. `Text.TrimSpace` and `Text.Fields` use Go's ASCII
white space: tab, newline, vertical tab, form feed, carriage return and space.
RE2's `\s` (`Text.IsPerlSpace`) is the same set without the vertical tab.

**Go map iteration.** Iteration over a Go map
(`ReplaceTokens`, the second loop of `MergeEnvExample`, the mock's `GetMany`)
is a loop that picks the next key with `:|`, so it may pick any key left. Each
such method also returns a ghost sequence, the order it chose. Its
postcondition holds for that order, whatever it is. The scaffold calls
`ReplaceTokens` once per rendered file, and Go ranges the map afresh each
time, so the scaffold takes a parameter `fileOrder` giving, for each file
path, the order of the four keys used on that file; it may be any
enumeration of them (`Scaffold.MapOrders`).

**The filesystem.** The destination is a `FileTree.Disk` object. It holds a
map from relative path to `Dir | File(data, mode)` and a flag saying whether
the root exists. `MkdirAll` and `WriteFile` update it in place. The template
tree is an immutable map of the same shape. `fs.WalkDir`'s visiting order is
an input sequence, and read failures are a set of unreadable paths.

**Outside answers.** Some results come from outside the program:
- the database, through the repository results;
- bcrypt, JWT signing and verification, SHA-256, `crypto/rand`, Google's `idtoken.Validate` and `uuid.Parse`;
- the policy enforcer, `os.Getwd`, `os.Stat`/`os.ReadDir`, `InitGitRepo` and the clock.

Each such result is a parameter. The service and middleware methods return
their answer together with the sequence of repository or enforcer calls they
made. Their contracts therefore state the order of calls and the data passed
to each.

## Model

| member | source | states |
|---|---|---|
| ScaffoldConfig.DefaultConfig | apps/cli/internal/scaffold/defaults.go:3-29 | the project is "my-app"; web, docker, git and use-defaults are on; the destination is empty; storage is local at "storage" with no S3; Postgres and bun; the database connection is localhost:5432, user and password "postgres", database "app", sslmode "disable"; the module path is the default owner, "/", then the project name |
| ScaffoldConfig.DefaultConfigValid | apps/cli/internal/scaffold/defaults.go:5-7 | the default name and module path pass both validators |
| Templating.ReplaceTokens | apps/cli/internal/scaffold/templating.go:5-11 | for whatever order the map is walked in (an enumeration of its keys), the result is ReplaceAll applied key by key in that order |
| Templating.FoldReplace | apps/cli/internal/scaffold/templating.go:5-11 | the key-by-key ReplaceAll walk in a given key order; defined by its recursion, with its properties stated by FoldReplaceEmpty, FoldReplaceAbsent, FoldSkipsAbsent and FoldOneHit below |
| Templating.FoldReplaceEmpty | apps/cli/internal/scaffold/templating.go:5-10 | an empty replacement map leaves the input unchanged |
| Templating.FoldReplaceAbsent | apps/cli/internal/scaffold/templating.go:7-9 | when no key occurs in the input, every order leaves the input unchanged |
| Templating.FoldSkipsAbsent | apps/cli/internal/scaffold/templating.go:7-9 | keys absent from the text, walked in any order, leave it unchanged |
| Templating.FoldOneHit | apps/cli/internal/scaffold/templating.go:7-9 | when the keys before one position are absent from the text and the keys after it absent from that key's replacement, the whole walk gives that one replacement |
| Templating.ProjectNameTokenFold | apps/cli/internal/scaffold/scaffold.go:29-38 | with the scaffold's four keys in any map order, "{{PROJECT_NAME}}" becomes the project name, provided the name holds none of the other three keys |
| Templating.ReplaceAllWhole | apps/cli/internal/scaffold/templating.go:8 | ReplaceAll of a non-empty key on the key itself gives the value |
| Templating.ReplaceAllSkips | apps/cli/internal/scaffold/templating.go:8 | a prefix in which the key starts nowhere is copied unchanged, and the scan resumes after it |
| Templating.ReplaceAllShort | apps/cli/internal/scaffold/templating.go:8 | a text shorter than the key is left unchanged |
| Templating.ProjectNameTokenReplaced | apps/cli/internal/scaffold/templating.go:5-11 | "{{PROJECT_NAME}}" with only that key mapped to a name becomes the name |
| Templating.ScaffoldReplacements | apps/cli/internal/scaffold/scaffold.go:29-34 | exactly the four keys; both name keys map to the project name and both path keys to the module path |
| Templating.TemplatePathSpelling | apps/cli/internal/scaffold/scaffold.go:13-14 | the template module path is its owner prefix followed by the template project name, so one key contains the other |
| Templating.OwnerPrefixHidesProjectName | apps/cli/internal/scaffold/scaffold.go:13-14 | inside the template module path, the project-name key first occurs after the owner prefix |
| Templating.ReplaceTokensOrderMatters | apps/cli/internal/scaffold/templating.go:7-9 | for any name and path free of the other keys: walking the module-path key first turns the template module path into the path, while walking the project-name key first gives the owner prefix plus the name |
| Templating.ReplaceTokensOrderExample | apps/cli/internal/scaffold/templating.go:7-9 | with name "demo" and path "github.com/acme/demo" the two orders give different outputs |
| Templating.LongestKey | apps/cli/internal/scaffold/templating.go:5-11 | the longest non-empty key that starts the text, or None when no key starts it |
| Templating.LongestKeyOrderFree | apps/cli/internal/scaffold/templating.go:7 | the longest key does not depend on how the keys are listed |
| Templating.SubstituteOrderFree | apps/cli/internal/scaffold/templating.go:7-9 | single-pass longest-first substitution gives the same text for every listing of the same keys |
| Templating.SubstituteAbsent | apps/cli/internal/scaffold/templating.go:7-9 | a text containing no key is unchanged |
| Templating.SubstituteWholeKey | apps/cli/internal/scaffold/templating.go:8 | a key on its own becomes its value |
| Templating.SubstituteScaffoldKeys | apps/cli/internal/scaffold/scaffold.go:29-34 | each of the four scaffold keys on its own becomes the configured name or path, in any listing order |
| Templating.KeyListing | apps/cli/internal/scaffold/templating.go:7 | the listing enumerates the map's keys, each once |
| Templating.ReplaceTokensLongestFirst | apps/cli/internal/scaffold/templating.go:5-11 | the output equals longest-first substitution under every enumeration of the keys, so it is order-independent |
| Conditions.AllEnabledSkipsNothing | apps/cli/internal/scaffold/conditions.go:5-18 | with web and docker both on, no path is skipped |
| Conditions.SkipClosedBelow | apps/cli/internal/scaffold/conditions.go:7-12 | if a directory is skipped for being apps/web or packages/ui, so is everything below it |
| Conditions.SkipMonotone | apps/cli/internal/scaffold/conditions.go:5-18 | turning features off only skips more paths |
| Conditions.WebSiblingKept | apps/cli/internal/scaffold/conditions.go:7 | a sibling such as apps/webhooks is never skipped, because the prefix test needs the trailing "/" |
| Conditions.NestedComposeKept | apps/cli/internal/scaffold/conditions.go:13-15 | a compose file below the top level is not skipped, because the whole path is tested |
| Conditions.ApiMainKept | apps/cli/internal/scaffold/conditions_test.go:27-29 | apps/api/main.go is never skipped |
| Conditions.DisabledFeaturesSkipped | apps/cli/internal/scaffold/conditions.go:7-15 | with the features off, apps/web, packages/ui, everything below them and every path starting with docker-compose is skipped |
| Conditions.SkipForConfig | apps/cli/internal/scaffold/conditions.go:5-18 | a path is skipped iff web is off and it is apps/web or packages/ui or lies below one of them, or docker is off and the path starts with "docker-compose" |
| Renderer.StripTemplateSuffix | apps/cli/internal/scaffold/renderer.go:65-70 | removes exactly one trailing ".tmpl" and leaves other paths unchanged |
| Renderer.StripOnce | apps/cli/internal/scaffold/renderer.go:65-70 | not idempotent: "x.tmpl.tmpl" becomes "x.tmpl", and only a second call gives "x" |
| Renderer.StripCollides | apps/cli/internal/scaffold/renderer.go:65-70 | "p.tmpl" and "p" have the same output name |
| Renderer.DefaultSkip | apps/cli/internal/scaffold/renderer.go:72-83 | skipped iff the base name does not start with ".env.example" and some glob, with "**/" removed, matches the whole path |
| Renderer.RenderFS | apps/cli/internal/scaffold/renderer.go:13-63 | the destination after the walk is the fold of the per-entry step over the walk order; the walk fails iff the fold aborts, with that error |
| Renderer.VisitEntry | apps/cli/internal/scaffold/renderer.go:14-62 | one callback: the walk's error, the root, a skip (pruning a directory), mkdir of a directory, or mkdir of the parent, then open and truncate, then write of the transformed or copied content, each failure returned unchanged |
| Renderer.AbortIsFinal | apps/cli/internal/scaffold/renderer.go:15-17 | the first error ends the walk; later entries change nothing |
| Renderer.RootAndPrunedInert | apps/cli/internal/scaffold/renderer.go:18-26 | the root and anything below a pruned directory leave the destination unchanged |
| Renderer.UntouchedStays | apps/cli/internal/scaffold/renderer.go:27-42 | a destination path that is no entry's output or one of its parents is untouched |
| Renderer.VisitWritesFile | apps/cli/internal/scaffold/renderer.go:27-61 | a file entry that is not skipped writes its transformed content to its stripped name, keeping an existing file's mode |
| Renderer.WalkWritesFile | apps/cli/internal/scaffold/renderer.go:13-63 | after a successful walk from a start whose pruned directories are all skipped ones, a file that is not skipped and has no skipped directory above it holds its transformed content at its stripped name, unless a later entry has the same output name |
| Renderer.WalkPrunesSkipped | apps/cli/internal/scaffold/renderer.go:21-25 | the walk prunes only source directories that the skip predicate selects |
| Renderer.RenderWritesEveryFile | apps/cli/internal/scaffold/renderer.go:13-63 | for a walk that visits every source path once and succeeds from an unpruned start, every file that is not skipped, has no skipped directory above it and shares its output name with no other file holds its transformed content at its stripped name |
| Renderer.FileSurvivesWalk | apps/cli/internal/scaffold/renderer.go:13-63 | a written file survives the rest of a successful walk when no later entry has its output name |
| Renderer.TransformErrorTruncates | apps/cli/internal/scaffold/renderer.go:39-57 | a failing transform aborts with its error after the output file was already truncated to empty |
| Renderer.VisitKeepsFile | apps/cli/internal/scaffold/renderer.go:27-42 | an existing file that is not the entry's output or one of its parents is unchanged |
| FileTree.Disk.MkdirAll | apps/cli/internal/scaffold/renderer.go:28-33 | fails, changing nothing, iff some prefix of the path is a file; otherwise the path and all its parents are directories |
| FileTree.Disk.WriteFile | apps/cli/internal/scaffold/renderer.go:39-61 | fails iff the target is a directory; otherwise the file holds the data, keeping an existing file's mode |
| FileTree.WithDirsFrame | apps/cli/internal/scaffold/renderer.go:28-33 | MkdirAll makes every prefix a directory and changes no other path |
| EnvMerge.DropCR | apps/cli/internal/scaffold/env.go:11-13 | the scanner drops a trailing carriage return and leaves other lines whole |
| EnvMerge.ScanLines | apps/cli/internal/scaffold/env.go:11-13 | the scanned lines contain no newline |
| EnvMerge.ScanRender | apps/cli/internal/scaffold/env.go:11-33 | scanning a joined, newline-terminated output gives back its lines |
| EnvMerge.SplitAtEquals | apps/cli/internal/scaffold/env.go:19-21 | splits at the first "=": the key part has none and the value keeps any later "=" |
| EnvMerge.MergedLines | apps/cli/internal/scaffold/env.go:12-27 | one output line per input line |
| EnvMerge.AppendedLines | apps/cli/internal/scaffold/env.go:28-32 | one appended line per unmatched key |
| EnvMerge.MergeEnvExample | apps/cli/internal/scaffold/env.go:8-34 | the result is the merged lines, then the unmatched overrides in the map order actually taken, joined and newline-terminated |
| EnvMerge.MergeEntries | apps/cli/internal/scaffold/env.go:12-27 | the first loop's lines are the per-line merge, and its seen set is exactly the matched keys |
| EnvMerge.MergeOne | apps/cli/internal/scaffold/env.go:13-26 | a blank, comment or "="-less line is kept verbatim; any other line becomes key=value, with the override when the key has one |
| EnvMerge.AppendUnseen | apps/cli/internal/scaffold/env.go:28-32 | each override key not seen is appended exactly once, in some map order |
| EnvMerge.MatchedKeysSnoc | apps/cli/internal/scaffold/env.go:22-25 | the seen set grows by exactly the key a line matched |
| EnvMerge.ScanLinesSafe | apps/cli/internal/scaffold/env.go:11-13 | input without carriage returns scans into lines without newlines or carriage returns |
| EnvMerge.MergeLineSafe | apps/cli/internal/scaffold/env.go:15-26 | merging keeps lines free of newlines when the overrides are |
| EnvMerge.EntryLine | apps/cli/internal/scaffold/env.go:19-26 | "key=value" for a plain key is an entry whose key and value are those |
| EnvMerge.MatchedKeyHasLine | apps/cli/internal/scaffold/env.go:22-25 | a matched key comes from some entry line whose trimmed key it is |
| EnvMerge.EveryOverrideWritten | apps/cli/internal/scaffold/env.go:22-32 | every override key appears in the output as key=value, either in place or appended |
| EnvMerge.MergeLineCount | apps/cli/internal/scaffold/env.go:28-33 | output lines = input lines + unmatched keys; the text ends in a newline and scans back to those lines, so empty input gives "\n" |
| EnvMerge.ThreeLines | apps/cli/internal/scaffold/env.go:12-27 | an entry, a verbatim line and an entry merge to the overridden first entry, the verbatim line and the untouched second entry |
| EnvMerge.MergeEntryCommentEntry | apps/cli/internal/scaffold/env.go:8-34 | for any entry, comment, entry input with one matched and one extra key, the output is the overridden entry, the comment, the second entry and the appended extra |
| EnvMerge.MergeExample | apps/cli/internal/scaffold/env_test.go:8-21 | "FOO=bar\n# Comment\nBAZ=qux\n" with FOO and NEW overridden gives FOO=override, the comment, BAZ=qux and NEW=value |
| EnvOverrides.NameInjective | apps/cli/internal/scaffold/env_overrides.go:10-27 | the fourteen variable names are distinct |
| EnvOverrides.Rekey | apps/cli/internal/scaffold/env_overrides.go:9-28 | renaming the keys by an injective spelling keeps every entry and adds none |
| EnvOverrides.Spell | apps/cli/internal/scaffold/env_overrides.go:9-28 | the spelled map is the entry map renamed by the variable names |
| EnvOverrides.Quote | apps/cli/internal/scaffold/env_overrides.go:10 | the value wrapped in double quotes, with no escaping |
| EnvOverrides.EnvOverridesFromConfig | apps/cli/internal/scaffold/env_overrides.go:5-32 | exactly one entry, keyed apps/api/.env.example, holding the spelled entries of the configuration |
| EnvOverrides.BaseEntryKeys | apps/cli/internal/scaffold/env_overrides.go:10-18 | the app name, the six database keys and the provider |
| EnvOverrides.StorageEntryKeys | apps/cli/internal/scaffold/env_overrides.go:19-28 | the local key only for local storage with a local config; the five S3 keys only for S3 storage with an S3 config |
| EnvOverrides.OverrideKeys | apps/cli/internal/scaffold/env_overrides.go:9-28 | the key set is the base keys plus the storage keys that apply |
| EnvOverrides.StorageKeysIff | apps/cli/internal/scaffold/env_overrides.go:18-28 | the base keys are always present; LOCAL.BASE_DIR iff local with a config; all S3 keys iff S3 with a config, and none otherwise |
| EnvOverrides.KeySetsDisjoint | apps/cli/internal/scaffold/env_overrides.go:10-27 | the base, local and S3 keys are pairwise distinct |
| EnvOverrides.DatabaseValues | apps/cli/internal/scaffold/env_overrides.go:11-16 | each database value is the quoted connection field |
| EnvOverrides.NameAndProviderValues | apps/cli/internal/scaffold/env_overrides.go:10-18 | the quoted project name and storage type |
| EnvOverrides.LocalValue | apps/cli/internal/scaffold/env_overrides.go:19-21 | the quoted local path |
| EnvOverrides.S3Values | apps/cli/internal/scaffold/env_overrides.go:22-28 | the quoted bucket, region, endpoint, access key and secret |
| EnvOverrides.BaseUnshadowed | apps/cli/internal/scaffold/env_overrides.go:10-27 | no storage entry overwrites a base entry |
| EnvOverrides.AllQuoted | apps/cli/internal/scaffold/env_overrides.go:10-27 | every value is wrapped in double quotes |
| EnvOverrides.OverrideCount | apps/cli/internal/scaffold/env_overrides.go:18-28 | local and S3 keys never coexist, so there are 8, 9 or 13 keys |
| Safety.EnsureSafeDestination | apps/cli/internal/scaffold/safety.go:9-18 | a missing destination passes; probe errors and "not a directory" are returned even with overwrite; a non-empty directory fails without overwrite; it passes iff the probe succeeds and the directory is empty or overwrite is on |
| Safety.EmptyOrOverwritePasses | apps/cli/internal/scaffold/safety.go:14-17 | an empty directory, or any directory with overwrite, passes |
| Safety.OccupiedRefused | apps/cli/internal/scaffold/safety.go:14-16 | a directory with an entry is refused with "destination directory is not empty" |
| Scaffold.AnySkip | apps/cli/internal/scaffold/scaffold.go:56-65 | true iff some non-nil predicate in the list holds, so false for an empty or all-nil list |
| Scaffold.CombineSkips | apps/cli/internal/scaffold/scaffold.go:56-65 | the combined predicate holds on a path iff some non-nil predicate of the list holds on it |
| Scaffold.ScaffoldSkipIff | apps/cli/internal/scaffold/scaffold.go:35-65 | the scaffold's skip is DefaultSkip or the configuration's skip |
| Scaffold.EnvTarget | apps/cli/internal/scaffold/scaffold.go:80 | a path ending in ".example" loses exactly that suffix; any other path is its own target |
| Scaffold.ScaffoldTransform | apps/cli/internal/scaffold/scaffold.go:36-38 | the per-file transform never fails, and its output is ReplaceTokens of the content in that file's map order |
| Scaffold.EnvTargetShape | apps/cli/internal/scaffold/scaffold.go:80 | the target is the source without ".example": it ends in ".env", not in ".env.example" |
| Scaffold.EnvTargetInjective | apps/cli/internal/scaffold/scaffold.go:80 | distinct example files have distinct targets |
| Scaffold.WriteEnvFile | apps/cli/internal/scaffold/scaffold.go:76-89 | writes the sibling with the merge of the example with its overrides (none when absent), keeping the example's mode; fails, changing nothing, iff the target is a directory |
| Scaffold.GenerateEnvFiles | apps/cli/internal/scaffold/scaffold.go:67-94 | a missing root fails; otherwise it succeeds iff every example is readable and its target writable; only targets change, and on success each target holds its merge |
| Scaffold.EnvLoop | apps/cli/internal/scaffold/scaffold.go:68-93 | the walk over the example files in any order: same result and targets as GenerateEnvFiles |
| Scaffold.EnvStep | apps/cli/internal/scaffold/scaffold.go:72-91 | one example file: a failure means the pass as a whole fails; a success extends the written targets by this file's |
| Scaffold.EnvFileFrame | apps/cli/internal/scaffold/scaffold.go:76-88 | an example's merge depends only on the example and its target, so other writes do not change it |
| Scaffold.EffectiveOverrides | apps/cli/internal/scaffold/scaffold.go:42-44 | given overrides are used as they are; nil is replaced by the ones derived from the configuration |
| Scaffold.ScaffoldFromFS | apps/cli/internal/scaffold/scaffold.go:25-54 | a failing gate is returned with the destination unchanged; otherwise the tree is rendered with every file passed through ReplaceTokens in that file's map order (an abort is returned as is), then env files are generated, then git runs iff it is enabled and everything before succeeded; on success every target holds its merge |
| Scaffold.PlainFileSubstituted | apps/cli/internal/scaffold/scaffold.go:36-38 | a rendered file without ".tmpl" still goes through ReplaceTokens: its output is the key-by-key replacement of its content in that file's map order, so a file holding "{{PROJECT_NAME}}" comes out as the project name when the name holds none of the other keys |
| ValidateInputs.ProjectName | apps/cli/internal/validate/inputs.go:11-19 | "required" iff blank; "path separators" iff not blank and containing "/", "\\", tab, CR or LF; accepted otherwise, interior spaces included |
| ValidateInputs.ValidProjectNameIsOneElement | apps/cli/internal/validate/inputs.go:15-17 | an accepted name is one non-empty path element |
| ValidateInputs.ProjectNameRejects | apps/cli/internal/validate/inputs_test.go:5-29 | "", "my/app", "my\\app" and a name with a newline are rejected |
| ValidateInputs.ProjectNameAccepts | apps/cli/internal/validate/inputs_test.go:5-29 | "myapp" and "admin" are accepted |
| ValidateInputs.NameRejected | apps/cli/internal/validate/inputs.go:12-17 | a '/', '\\', tab, CR or LF anywhere rejects the name, with the separator error unless the name is blank |
| ValidateInputs.DotNamesAccepted | apps/cli/internal/validate/inputs.go:11-19 | "." and ".." are accepted |
| ValidateInputs.NameAccepted | apps/cli/internal/validate/inputs.go:11-19 | lower-case letters and dots form an accepted name |
| ValidateInputs.PatternRunMeaning | apps/cli/internal/validate/inputs.go:9 | each state of the automaton running the module-path expression means what it should |
| ValidateInputs.PatternIsModuleShape | apps/cli/internal/validate/inputs.go:9 | the expression matches iff the path is at least two non-empty "/"-separated segments of [A-Za-z0-9_.-] |
| ValidateInputs.ModulePath | apps/cli/internal/validate/inputs.go:21-29 | "required" iff blank; accepted iff module-shaped; otherwise the shape error |
| ValidateInputs.ThreeSegmentsAccepted | apps/cli/internal/validate/inputs.go:9-27 | three non-empty segments of allowed characters are accepted |
| ValidateInputs.OneSegmentRejected | apps/cli/internal/validate/inputs.go:25-27 | a single segment gets the shape error |
| ValidateInputs.ModulePathExamples | apps/cli/internal/validate/inputs_test.go:32-52 | "" is required, "github.com/acme/foo" is accepted and "github.com" is rejected by shape |
| ValidatePath.Clean | apps/cli/internal/validate/path.go:29 | a rooted path cleans to "/" plus its resolved segments |
| ValidatePath.CleanRootedIdempotent | apps/cli/internal/validate/path.go:29 | cleaning a rooted path twice is cleaning it once |
| ValidatePath.Base | apps/cli/internal/validate/path.go:30 | the base name is never empty |
| ValidatePath.BaseOfName | apps/cli/internal/validate/path.go:30 | the base of prefix/name is the name |
| ValidatePath.Abs | apps/cli/internal/validate/path.go:17-21 | a rooted argument is cleaned; a relative one needs the working directory and fails with its error |
| ValidatePath.ResolveDestination | apps/cli/internal/validate/path.go:9-22 | "" gives the working directory (or its error); any other argument is made absolute |
| ValidatePath.ResolveProjectDestination | apps/cli/internal/validate/path.go:24-34 | a resolution error is returned unchanged |
| ValidatePath.ResolvedIsCleanRooted | apps/cli/internal/validate/path.go:24-34 | the result is rooted and clean |
| ValidatePath.CleanAppend | apps/cli/internal/validate/path.go:33 | joining a plain name adds one segment, whose base is that name |
| ValidatePath.ResolvedEndsInProjectName | apps/cli/internal/validate/path.go:29-33 | for a plain name (not "." or ".."), the base of the result is the project name |
| ValidatePath.ResolveProjectDestinationIdempotent | apps/cli/internal/validate/path.go:24-34 | resolving the result again returns it unchanged |
| ValidatePath.SpelledPathIsClean | apps/cli/internal/validate/path.go:29-30 | "/" joined with plain segments is already clean, and its base is the last segment |
| ValidatePath.DotDotWalksUp | apps/cli/internal/validate/path.go:29-33 | the accepted name ".." resolves to the parent of the base directory |
| ValidatePath.IsNonEmptyDir | apps/cli/internal/validate/path.go:36-52 | true iff a directory with entries; false iff missing or an empty directory; a non-directory is an error; stat and read errors propagate |
| NewCommand.NameAsWritten | apps/cli/internal/cmd/new.go:231-238 | the name the code reads: the argument, else the flag, else the default config's |
| NewCommand.NameCheckOnlyForEmptyArg | apps/cli/internal/cmd/new.go:234-241 | the name is empty, and so refused, iff it was given as an empty argument |
| NewCommand.NameFallsBackToDefault | apps/cli/internal/cmd/new.go:231-241 | configFromFlags called directly with no argument and no --name takes the name "my-app" and raises no required-name error; the command itself never makes that call |
| NewCommand.RequestedName | apps/cli/internal/cmd/new.go:234-241 | the argument takes precedence over --name; empty iff neither supplies a name |
| NewCommand.Route | apps/cli/internal/cmd/new.go:69-76 | the flag-driven path is taken iff the call is not interactive and has at least one argument; otherwise the wizard runs |
| NewCommand.NameFlagIgnored | apps/cli/internal/cmd/new.go:69-238 | as dispatched, --name never names the project: without an argument the wizard opens, and with one the argument's name is used whatever --name says |
| NewCommand.NameFlagHonoured | apps/cli/internal/cmd/new.go:69-241 | under the dispatch the "(arg or --name)" message describes, --name names a project given without an argument, and a call reaching configFromFlags lacks a name only for an empty argument |
| NewCommand.ConfigFromFlags | apps/cli/internal/cmd/new.go:230-321 | the name error fires for an empty first argument (and only then, since the name otherwise falls back to "my-app"); then the module error, S3 details, validators, resolution; on success use-defaults is off, the name is the argument, else --name, else "my-app", the name and module validate, each switch is on iff on and not negated, each DB field changes only when its flag is non-empty, storage follows the flags, and the destination is resolved |
| NewCommand.ApplyFlags | apps/cli/internal/cmd/new.go:247-305 | the module, switches, database, package manager and storage from the flags; S3 without all five details fails |
| NewCommand.ApplySwitches | apps/cli/internal/cmd/new.go:252-263 | a --no-X flag forces the feature off whatever the positive flag says; nothing else changes |
| NewCommand.ApplyDatabase | apps/cli/internal/cmd/new.go:265-285 | the type and each connection field change only when their flag is non-empty; nothing else changes |
| NewCommand.ApplyStorage | apps/cli/internal/cmd/new.go:288-305 | the storage kind from the flag; S3 needs all five details and fills them, otherwise there is no S3 config; local is "storage" |
| NewCommand.CheckAndResolve | apps/cli/internal/cmd/new.go:307-318 | name then module are validated, then the destination is resolved from the base and the name |
| NewCommand.RunNonInteractive | apps/cli/internal/cmd/new.go:323-336 | scaffolds iff the destination is missing or empty; a non-empty destination and probe errors are refused without scaffolding |
| NewCommand.NonEmptyNeverScaffolds | apps/cli/internal/cmd/new.go:324-331 | a probe reporting a directory with one or more entries is classified as non-empty (`IsNonEmptyDir` gives true), the case in which RunNonInteractive returns the not-empty error and does not scaffold |
| ApiTypes.Hex | apps/api/internal/service/auth.go:366-369 | two lower-case hex digits per byte |
| ApiTypes.UnhexHex | apps/api/internal/service/auth.go:366-369 | hex decoding inverts hex encoding |
| ApiTypes.HexInjective | apps/api/internal/service/auth.go:366-369 | distinct digests have distinct hex strings |
| ApiTypes.UuidString | apps/api/internal/lib/utils/utils.go:90 | a UUID prints as 36 characters |
| ApiTypes.UuidStringInjective | apps/api/internal/lib/utils/utils.go:90 | distinct UUIDs print differently |
| ApiUtils.Atoi | apps/api/internal/lib/utils/utils.go:49 | a parsed value fits in a Go int |
| ApiUtils.AtoiItoa | apps/api/internal/lib/utils/utils.go:49 | a decimal numeral parses back to its value |
| ApiUtils.ParseQueryInt | apps/api/internal/lib/utils/utils.go:32-60 | "", an unparsable text or a value below 1 gives the default (0 when not supplied); a value v ≥ 1 gives v, or the maximum when one is supplied and v exceeds it |
| ApiUtils.ParseQueryIntRange | apps/api/internal/lib/utils/utils.go:45-59 | the result is the default, the maximum, or a value in [1, max] |
| ApiUtils.ParseQueryIntDecimal | apps/api/internal/lib/utils/utils.go:49-56 | a positive numeral above the maximum gives the maximum, and otherwise its value |
| ApiUtils.ParseQueryIntNonCanonical | apps/api/internal/lib/utils/utils.go:45-56 | strconv.Atoi accepts a sign and leading zeros: "+5" gives 5, "007" gives 7, and "0010" with maximum 8 gives 8 |
| ApiUtils.ParseQueryIntNoDefault | apps/api/internal/lib/utils/utils.go:45-52 | with no maximum and no default, an unparsable text gives 0 |
| ApiUtils.GetModelSemanticName | apps/api/internal/lib/utils/utils.go:74-85 | the builder loop computes the spaced name |
| ApiUtils.SpacedRemoveSpaces | apps/api/internal/lib/utils/utils.go:74-85 | deleting the spaces of the spaced name gives the name without its spaces, so only spaces are inserted |
| ApiUtils.SpacedLength | apps/api/internal/lib/utils/utils.go:74-85 | exactly one space is inserted per upper-case letter after the first character |
| ApiUtils.ModelCacheKey | apps/api/internal/lib/utils/utils.go:86-91 | "" iff the id is nil; otherwise "resource:", the model name, and the id |
| ApiUtils.ModelCacheKeyInjective | apps/api/internal/lib/utils/utils.go:86-91 | distinct ids of one model have distinct keys |
| ApiUtils.ParseUuidParam | apps/api/internal/lib/utils/utils.go:24-30 | the parsed id, or a BadRequest with the single field error on "id" |
| Pagination.Paginate | apps/api/internal/handler/resource.go:60-79 | page ≥ 1 and the offset lies on that page; total pages is the ceiling of total / limit, and 0 iff total is 0 |
| Pagination.PaginateExample | apps/api/internal/handler/resource_test.go:81-111 | limit 2, offset 2 and total 5 give page 2 of 3 |
| QueryOptions.NormalDirection | apps/api/internal/repository/resource.go:178-182 | "asc" iff the trimmed, lower-cased direction is "asc", else "desc" |
| QueryOptions.NormalDirectionIdempotent | apps/api/internal/repository/resource.go:178-182 | normalising a direction twice is normalising it once |
| QueryOptions.GetManyOptions.constructor | apps/api/internal/repository/resource.go:161-171 | the options hold the given fields |
| QueryOptions.GetManyOptions.Normalize | apps/api/internal/repository/resource.go:173-186 | a non-positive limit becomes 20 and a positive one is kept; the offset and preloads are unchanged; the direction is normalised; an empty order-by becomes created_at; already-normal options keep their direction |
| QueryOptions.Names | apps/api/internal/repository/resource.go:193-206 | the trimmed, non-empty pieces, no more of them than there were |
| QueryOptions.ParsePreloads | apps/api/internal/repository/resource.go:188-207 | the loop computes the preload list |
| QueryOptions.PreloadsWellFormed | apps/api/internal/repository/resource.go:188-207 | every parsed preload is non-empty, trimmed and free of commas |
| QueryOptions.PreloadsOfJoin | apps/api/internal/repository/resource.go:188-207 | parsing the comma-join of well-formed names gives the names back in order |
| QueryOptions.FromRequest | apps/api/internal/repository/resource.go:161-171 | fresh normalised options: limit and offset from ParseQueryInt (0 becomes the default limit), preloads parsed, direction and order-by normalised |
| CachedRepository.ExtractEntityID | apps/api/internal/repository/resource.go:340-369 | an id only for a struct with a UUID ID field that is not nil |
| CachedRepository.AfterMiss | apps/api/internal/repository/resource.go:274-278 | an undecodable or missing entry is deleted, and nothing else changes |
| CachedRepository.Filled | apps/api/internal/repository/resource.go:282-292 | the id now hits with the value; nothing else changes |
| CachedRepository.ResourceRepository.constructor | apps/api/internal/repository/resource.go:34-39 | the cache is enabled iff there is a client and the TTL is positive |
| CachedRepository.ResourceRepository.GetCachedById | apps/api/internal/repository/resource.go:261-280 | disabled: a miss with no change; a hit returns the value; an undecodable entry is deleted and treated as a miss |
| CachedRepository.ResourceRepository.SetCache | apps/api/internal/repository/resource.go:282-292 | writes only when enabled, with an entity and no preloads |
| CachedRepository.ResourceRepository.SetCacheFromEntity | apps/api/internal/repository/resource.go:294-303 | an entity without a usable id is never cached |
| CachedRepository.ResourceRepository.EvictCache | apps/api/internal/repository/resource.go:316-321 | when enabled, removes exactly that id |
| CachedRepository.ResourceRepository.EvictCacheFromEntity | apps/api/internal/repository/resource.go:305-314 | removes the entity's id when it has a usable one |
| CachedRepository.ResourceRepository.Store | apps/api/internal/repository/resource.go:41-47 | the DB result; only a stored entity with a usable id is cached |
| CachedRepository.ResourceRepository.GetByID | apps/api/internal/repository/resource.go:49-63 | with the cache enabled and no preloads a hit is returned without the DB and a miss is filled from it; with preloads the cache is neither read nor written |
| CachedRepository.ResourceRepository.Update | apps/api/internal/repository/resource.go:65-80 | the DB result; a successful write evicts the entity's id, a failed one leaves the cache alone |
| CachedRepository.ResourceRepository.Destroy | apps/api/internal/repository/resource.go:82-88 | the DB result; success evicts the id |
| CachedRepository.ResourceRepository.Kill | apps/api/internal/repository/resource.go:90-96 | the DB result; success evicts the id |
| CachedRepository.ResourceRepository.Restore | apps/api/internal/repository/resource.go:98-110 | a failed restore changes nothing; otherwise the re-read result, with the id evicted and then re-cached when the read succeeded |
| MockRepository.ApplyUpdates | apps/api/internal/repository/resource_mock.go:75-90 | only the email, username and password hash may change, each to its update when present |
| MockRepository.OperationsPreserveValid | apps/api/internal/repository/resource_mock.go:34-124 | every operation keeps the live and deleted key sets disjoint and each entry under its own id |
| MockRepository.DestroyThenRestore | apps/api/internal/repository/resource_mock.go:95-124 | destroying a live id and restoring it gives back the tables as they were |
| MockRepository.KillIdempotent | apps/api/internal/repository/resource_mock.go:107-113 | killing twice, or after a destroy, is killing once |
| MockRepository.StoreRevives | apps/api/internal/repository/resource_mock.go:34-42 | after Store the entity is live under its id and has no tombstone |
| MockRepository.AbsentIsNoOp | apps/api/internal/repository/resource_mock.go:95-124 | restoring an id without a tombstone, or destroying an id that is not live, changes nothing |
| MockRepository.MockResourceRepository.constructor | apps/api/internal/repository/resource_mock.go:22-28 | both maps start empty |
| MockRepository.MockResourceRepository.Store | apps/api/internal/repository/resource_mock.go:34-42 | succeeds; the entity goes into data and its tombstone is removed |
| MockRepository.MockResourceRepository.GetByID | apps/api/internal/repository/resource_mock.go:44-52 | only live entries are seen; a deleted or absent id is not found |
| MockRepository.MockResourceRepository.GetMany | apps/api/internal/repository/resource_mock.go:54-62 | every live entity, once each in map order, and total equal to their count |
| MockRepository.MockResourceRepository.Update | apps/api/internal/repository/resource_mock.go:64-93 | a non-live id is not found and nothing changes; otherwise the first update map is applied |
| MockRepository.MockResourceRepository.Destroy | apps/api/internal/repository/resource_mock.go:95-105 | a live entry moves to deleted; an absent id is not found and nothing changes |
| MockRepository.MockResourceRepository.Kill | apps/api/internal/repository/resource_mock.go:107-113 | removes the id from both maps and always succeeds |
| MockRepository.MockResourceRepository.Restore | apps/api/internal/repository/resource_mock.go:115-124 | a tombstoned entry moves back and is returned, otherwise not found |
| ResourceServices.ResourceService.MapError | apps/api/internal/service/resource.go:41-50 | NotFound "<resource> not found" iff the error is exactly RecordNotFound; any other error goes to HandleError |
| ResourceServices.ResourceService.Store | apps/api/internal/service/resource.go:33-39 | one store call; the entity or the handled error |
| ResourceServices.ResourceService.GetByID | apps/api/internal/service/resource.go:41-50 | one lookup; the entity or the mapped error |
| ResourceServices.ResourceService.GetMany | apps/api/internal/service/resource.go:52-58 | one list call; the list or the handled error |
| ResourceServices.ResourceService.Update | apps/api/internal/service/resource.go:60-84 | look up before writing; an empty update returns the entity with no write; not-found at either step becomes NotFound |
| ResourceServices.ResourceService.Destroy | apps/api/internal/service/resource.go:86-94 | success, or the mapped error |
| ResourceServices.ResourceService.Kill | apps/api/internal/service/resource.go:96-104 | success, or the mapped error |
| ResourceServices.ResourceService.Restore | apps/api/internal/service/resource.go:106-126 | without preloads the restored entity, with no second read; with preloads a re-read through GetByID |
| ResourceServices.WrappedNotFoundFallsThrough | apps/api/internal/service/resource.go:44 | a wrapped RecordNotFound satisfies errors.Is but is not mapped to NotFound |
| UserModel.StoreToModel | apps/api/internal/model/user.go:42-48 | copies email, username and Google id, and leaves the password hash empty |
| UserModel.UpdateToModel | apps/api/internal/model/user.go:56-68 | copies the fields, the raw password going into the password hash |
| UserModel.ToMap | apps/api/internal/model/user.go:70-82 | one key per non-nil field, holding its raw value, the password under password_hash, and no other keys |
| UserModel.ToMapEmptyIff | apps/api/internal/model/user.go:70-82 | the map is empty iff every field is nil |
| UserModel.ToMapAgreesWithToModel | apps/api/internal/model/user.go:56-82 | applying the map to the zero user gives the DTO's model |
| UserService.Store | apps/api/internal/service/user.go:32-47 | the password hash is set only for a non-empty password; a failed hash stops before the store call; otherwise one store call, returning the stored user on success and the handled error on failure |
| UserService.Normalized | apps/api/internal/service/user.go:56-112 | email normalised and username trimmed, each kept iff non-empty after that; an empty password dropped and any other replaced by the hash |
| UserService.CleanUpdates | apps/api/internal/service/user.go:54-92 | a short non-empty password is refused; a failed hash is a 500; otherwise the normalised map |
| UserService.Update | apps/api/internal/service/user.go:49-108 | a nil DTO is only a GetByID; refusals come before any repository call; once clean-up passes the user is always looked up, then returned unchanged when no updates remain, otherwise written with the cleaned map |
| UserService.BlankUpdateWritesNothing | apps/api/internal/service/user.go:56-101 | blank email and username with an empty password clean up to nothing, so there is no write |
| AuthHandler.IsEmailShape | apps/api/internal/handler/auth.go:111-114 | an accepted e-mail has exactly one "@", a non-empty local part and no RE2 white space |
| AuthHandler.IsEmail | apps/api/internal/handler/auth.go:111-114 | the RE2 pattern `^[^@\s]+@[^@\s]+\.[^@\s]+$` as a predicate: some "@" splits a non-empty local part from a dotted domain; IsEmailShape above states what an accepted address then looks like |
| AuthHandler.NormalizeEmail | apps/api/internal/handler/auth.go:116-118 | the normalised address holds no upper-case ASCII letter; NormalizeEmailIdempotent below states that it is a fixed point |
| AuthHandler.NormalizeEmailIdempotent | apps/api/internal/handler/auth.go:116-118 | normalising twice is normalising once |
| AuthHandler.LoginIdentifier | apps/api/internal/handler/auth.go:78-81 | e-mail-shaped identifiers are normalised; anything else passes through unchanged |
| AuthHandler.LoginTrimIsNoOp | apps/api/internal/handler/auth.go:79-118 | for an e-mail without a vertical tab the trim removes nothing, so Login only lower-cases |
| AuthHandler.LoginTrimsVerticalTab | apps/api/internal/handler/auth.go:79-118 | "a@b.c" followed by a vertical tab is an e-mail, and Login trims it to "a@b.c" |
| AuthService.LookupCall | apps/api/internal/service/auth.go:214-219 | e-mail-shaped identifiers go to GetByEmail and all others to GetByUsername |
| AuthService.DeriveUsername | apps/api/internal/service/auth.go:284-290 | non-empty and without "@"; the text before the first "@" when non-empty, otherwise "user-" and eight characters of the new id |
| AuthService.DeriveUsernameOfEmail | apps/api/internal/service/auth.go:284-290 | for an e-mail, the username is its local part |
| AuthService.HashVerificationCode | apps/api/internal/service/auth.go:366-369 | 64 hex digits that decode to the SHA-256 digest |
| AuthService.EffectiveTtl | apps/api/internal/service/auth.go:303-306 | a TTL of 0 or less becomes 24 hours; a positive one is kept |
| AuthService.ExpiresInMinutes | apps/api/internal/service/auth.go:325-328 | at least 1, and otherwise the whole minutes of the TTL |
| AuthService.GenerateVerificationCode | apps/api/internal/service/auth.go:350-364 | succeeds iff all six draws succeed, giving six ASCII decimal digits that match the draws |
| AuthService.QueueEmailVerification | apps/api/internal/service/auth.go:292-341 | nothing for an empty or verified e-mail or with no verification repository; a failed draw stops before any call; otherwise expire, create a row holding the hash of the drawn code, and enqueue that code with its minutes only when a queue exists, each failure stopping the chain with its error |
| AuthService.Register | apps/api/internal/service/auth.go:79-117 | a short password is refused before CreateUser; a failed hash is a 500; after CreateUser come exactly queueEmailVerification's calls, and the result is the created user and token whatever the queue's answers, so a queue failure is ignored |
| AuthService.Login | apps/api/internal/service/auth.go:119-148 | not found, an empty hash or a wrong password is refused; UpdateLoginAt runs iff the password check passes |
| AuthService.ResolveGoogleUser | apps/api/internal/service/auth.go:172-194 | by Google id, else link the user found by e-mail, else create one with a derived username |
| AuthService.LoginWithGoogle | apps/api/internal/service/auth.go:150-212 | no client id gives BadRequest before any lookup; an invalid token or unverified e-mail is refused; otherwise the resolution's calls, then the login stamp and, iff the resolved user was unverified, the verified-at stamp; the resolved user (now verified) and token, or the resolution's error |
| AuthService.VerifyEmail | apps/api/internal/service/auth.go:221-258 | an already-verified user returns at once without the verification repository; otherwise look up by the code's hash, mark it used and stamp the user, each failure stopping with its handled error, and success returns the user verified now |
| Middleware.RequireAuth | apps/api/internal/middleware/auth.go:26-78 | authenticated iff the header is two fields, "Bearer" in any case, and the token verifies to a non-empty UUID subject, which becomes the user id; every refusal is 401 |
| Middleware.EmptyTokenUnreachable | apps/api/internal/middleware/auth.go:36-39 | the token field is never empty and already trimmed, so that check never fires |
| Middleware.TwoWordFields | apps/api/internal/middleware/auth.go:30-34 | a scheme, white space, a token and trailing white space are exactly two fields |
| Middleware.BearerHeader | apps/api/internal/middleware/auth.go:30-76 | a Bearer header of that shape is decided by its token alone |
| Middleware.ThreeWordsRefused | apps/api/internal/middleware/auth.go:30-34 | a third word is refused with 401 |
| Middleware.RoutePattern | apps/api/internal/middleware/authorization.go:65-70 | the matched route's path when non-empty, else the request path |
| Middleware.EnforceRequestOf | apps/api/internal/middleware/authorization.go:39-49 | the subject, the object (route pattern, path, parameters, query) and the method |
| Middleware.RequireAuthorization | apps/api/internal/middleware/authorization.go:23-63 | no user id is 401 first; an admin passes without the enforcer; no enforcer is 500; otherwise one question, with an error 500, a denial 403 and an allow passing |
| ApiErrors.GetApiErrorMessage | apps/web/src/lib/api-errors.ts:19-28 | the fallback for a falsy value, the network message for a fetch error, else the body's non-empty message, else the fallback |
| ApiErrors.ApplyFieldErrors | apps/web/src/lib/api-errors.ts:30-43 | one setError per entry, in order, of type "server" with the entry's error; none without a list; throws on null or undefined |
| ApiErrors.IsUnauthorizedError | apps/web/src/lib/api-errors.ts:45-50 | true iff truthy, not a fetch error, and status 401 |

## Left out

- Conditional template blocks (`{{IF_...}}`) and `toKebabCase`: only the tests mention them; ScaffoldFromFS never calls a conditional expander, so they are not part of the pipeline.
- QueueEmailVerification: the encoding error of `job.NewEmailVerificationTask` (auth.go:329-337) is not modelled; the task is always built, since its payload is plain strings and an int.
- `DefaultIgnoreGlobs` and `filepath.Match` are not part of this model: DefaultSkip takes the globs and the matcher as parameters.
- The order of `fs.WalkDir` and `filepath.Walk` is an input sequence, not derived from lexical order; cleaning of odd stripped names such as ".tmpl" alone is not modelled.
- `bufio.Scanner`'s 64 KiB line limit is not modelled.
- `InitGitRepo` and the embedded `templates.MonorepoFS` are outside answers: git is a given outcome, and `ScaffoldProject` is not modelled.
- Read, open and stat failures are the sets of unreadable paths and the probe's errors; only the conflicts the tree itself causes (a file where a directory is needed, a directory where a file is written) are derived.
- File permissions are kept as numbers and never checked.
- The interactive prompts, `runInteractive`, the welcome screen and the whole terminal UI, including the spinner's goroutine and channel, are left out.
- CachedRepository.ResourceRepository: the database is an outside answer (each method takes the DB result), so the model covers the cache only.
- CachedRepository.ResourceRepository.Update: the updates argument is not modelled, because only the DB's returned entity reaches the cache.
- CachedRepository.ResourceRepository: cache errors, TTL expiry, the JSON encoding and `resourceTypeName` reflection are not modelled; a value that will not decode is an `Undecodable` entry.
- MockRepository.MockResourceRepository is specialised to `User`, because the reflection helpers are not modelled.
- The GORM SQL in the repositories, the query building in `GetMany`, the Redis wrapper, `LoadConfig`, main.go, logging and the router are not part of this model.
- bcrypt, JWT signing and verification, SHA-256, `crypto/rand`, `idtoken.Validate`, `uuid.Parse` and the policy enforcer are parameters (their answers), never computed.
- Ids are assigned by the database and are given as the repository's answer.
- Pagination.Paginate: uses unbounded integers, so neither int64 overflow of resource.go is modelled: `total + limit - 1` (resource.go:76) and `Offset/Limit + 1` (resource.go:73), where offset = MaxInt64 and limit = 1 wrap the page to MinInt64 in Go while Paginate ensures page ≥ 1.
- AuthService.ExpiresInMinutes: uses integer division, whereas the source rounds the float `Duration.Minutes()`; for very large TTLs the source can report one minute more.
- AuthService: the nil-user branch of `generateToken` is not reachable through the modelled callers and is left out.
- ApiErrors.ApplyFieldErrors: a `body.errors` that is present but not an array is not modelled.
- `strings.ToLower`, `strings.EqualFold`, `strings.TrimSpace`, `strings.Fields` and RE2's `\s` are modelled over ASCII; Unicode case folding and Unicode white space are left out.
- The axios fetcher, the React pages, the hooks and the zod and ts-rest schemas are not part of this model.

## Findings

| source | as written | input that shows it | evidently intended | confidence | as-written member | corrected member |
|---|---|---|---|---|---|---|
| apps/cli/internal/scaffold/templating.go:5-11 | ReplaceTokens applies the four keys in Go's map order, and "go-kickstart" occurs inside "github.com/jeheskielSunloy77/go-kickstart", so the output depends on that order; a replacement value is also rescanned for the keys walked after it | project "demo" and module "github.com/acme/demo", on a file containing the template module path: the path-first order gives "github.com/acme/demo", the name-first order gives "github.com/jeheskielSunloy77/demo" | a result independent of order, each position taken by the longest key found there | not executed | Templating.ReplaceTokensOrderMatters | Templating.ReplaceTokensLongestFirst |
| apps/cli/internal/cmd/new.go:69-241 | `--name` never names the project: without an argument the command opens the wizard before configFromFlags runs, and with one the argument's name wins; the "my-app" fallback of configFromFlags is unreachable from the command | `new --name demo --module github.com/acme/demo` opens the interactive wizard; `new other --name demo --module github.com/acme/demo` names the project "other" | `--name` names the project when no argument is given, as the message "(arg or --name)" says | not executed | NewCommand.NameFlagIgnored | NewCommand.NameFlagHonoured |

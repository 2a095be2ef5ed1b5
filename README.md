# rollup-plugin-create-pack-file, modelled in Dafny

The plugin's job is to ship an `npm pack` archive with a Rollup bundle. Its
`generateBundle` hook does five things in order:

1. It runs the pack command, `npm pack` by default.
2. It gets the package descriptor. It uses the one supplied in the options,
   or else reads `package.json` starting from `rootDir`.
3. It derives the archive name `<name>-<version>.tgz` from the descriptor.
   The name loses its first `@`, and its first `/` becomes `-`.
4. It resolves the output directory. This is the bundle's `dir` when that is
   set, or else the directory part of its `file`.
5. It moves the archive from `rootDir` into that directory.

The first failure goes to Rollup's error channel, and nothing after it runs.

The model has five modules:

- `Wrappers`: `Option` and `Result`.
- `Text`: JavaScript's `indexOf` and `lastIndexOf`, and `replace` with a
  one-character pattern and a replacement string that contains no `$`. (The
  plugin passes only `''` and `'-'`.) Each is a plain function; what it
  computes is stated by lemmas proved by induction.
- `Paths`: `join` and `dirname` for POSIX paths, without normalisation.
- `PackFile`: the descriptor and `packFileName`.
- `Plugin`: the option defaults and the hook itself.
  - `Run` and `Trace` specify the hook as the sequence of events it records:
    command run, descriptor read, move, and error reported.
  - The imperative method `GenerateBundle` performs the steps one at a time on
    a `Recorder` object. It is proved to record exactly that trace.
- `BundleProperties`: what a run promises, stated over the trace. This covers
  the order of the steps, the paths given to the mover, and that a failure is
  reported exactly once.

The shell command and the mover are options a caller may inject. The
descriptor reader is file-system I/O that the plugin calls directly; the model
takes it as a parameter. A caller can skip the read by supplying the descriptor
in the `packageJson` option. Each effect is modelled as a function from its
arguments to "resolved" or "threw with this message".

The code drops the first `@` wherever it appears in the package name, not only
a leading one. The model follows the code; see `PackFile.InnerAtIsDropped`.

## Model

| member | source | states |
|---|---|---|
| `Text.IndexOfFinds` | src/plugin.js:25 | the search `replace` does finds the first occurrence of the character, and returns -1 exactly when the character is absent |
| `Text.LastIndexOfFinds` | src/plugin.js:38 | the search `dirname` does finds the last `/`, and returns -1 exactly when there is none |
| `Text.ReplaceFirstLength` | src/plugin.js:25 | a string without the pattern is unchanged; with it, one character is swapped for the replacement, so the length grows by the length of the replacement less one |
| `Text.ReplaceFirstSplit` | src/plugin.js:25 | only the first match is rewritten: the text before it and everything after it, later matches included, are kept |
| `Text.ReplaceFirstMultiset` | src/plugin.js:25 | replacing removes exactly one copy of the pattern character and adds the replacement's characters; nothing else changes |
| `Text.ReplaceFirstCount` | src/plugin.js:25 | the same, counted for each character |
| `PackFile.ScopedHyphenName` | src/plugin.js:25 | `@scope/pkg` becomes `scope-pkg` |
| `PackFile.UnscopedHyphenName` | src/plugin.js:25 | a name without `@` or `/` is kept as it is |
| `PackFile.HyphenNameLength` | src/plugin.js:25 | the name is one character shorter exactly when it holds an `@`; the `/` is replaced, not removed |
| `PackFile.HyphenNameCount` | src/plugin.js:25 | one `@` and one `/` leave the name and one `-` enters for the `/`; every other character, later `@`s and `/`s included, is kept |
| `PackFile.InnerAtIsDropped` | src/plugin.js:25 | the first `@` is dropped even when it does not lead the name |
| `PackFile.PackFileNameShape` | src/plugin.js:24-28 | every archive name is the hyphenated name followed by `-<version>.tgz`, with the exact length this implies |
| `PackFile.ScopedPackFileName` | src/plugin.js:24-28 | `@scope/pkg` at version `v` packs to `scope-pkg-v.tgz` |
| `PackFile.UnscopedPackFileName` | src/plugin.js:24-28 | `name` at version `v` packs to `name-v.tgz` |
| `Paths.DirnameOfJoin` | src/plugin.js:38 | the directory of `join(dir, name)` is `dir` again |
| `Paths.DirnameOfBareName` | src/plugin.js:38 | a file name without any `/` lies in `.` |
| `Plugin.ResolveOptions` | src/plugin.js:14-21 | each option is the user's value when one was given, and otherwise the default: working directory, `npm pack`, no descriptor, the real mover and the real shell |
| `Plugin.RunAppends` | src/plugin.js:33-43 | a run appends its own events to those already recorded and leaves the earlier ones unchanged |
| `Plugin.Recorder.Record` | src/plugin.js:35-41 | recording an event appends it to the recorded events |
| `Plugin.GenerateBundle` | src/plugin.js:33-43 | the imperative hook records exactly the specified trace after whatever was already recorded |
| `BundleProperties.TraceCases` | src/plugin.js:34-42 | the exact trace for each of the five ways a run can end: command failure, descriptor failure, missing output location, mover failure, or success |
| `BundleProperties.CommandRunsFirstAndOnce` | src/plugin.js:35 | the pack command runs first, runs with `packCommand` verbatim, and never runs again; a run has 2 to 4 events |
| `BundleProperties.CommandFailureStops` | src/plugin.js:35-41 | a failing pack command is reported, and nothing is read or moved after it |
| `BundleProperties.ErrorReportedOnce` | src/plugin.js:34-42 | the error channel is called once when some step fails and never when all succeed, and that call is the last event |
| `BundleProperties.SuccessEndsWithMove` | src/plugin.js:35-39 | a run in which every step succeeds ends with the move |
| `BundleProperties.MoveOnlyAfterEarlierSteps` | src/plugin.js:35-39 | the mover is called exactly when the command, the descriptor and the output directory all succeeded; it is called at most once, and no report comes before it |
| `BundleProperties.MovePaths` | src/plugin.js:38-39 | the move goes from `join(rootDir, packfile)` to `join(dir, packfile)` when `dir` is set and not empty, and otherwise to `join(dirname(file), packfile)` |
| `BundleProperties.MoveSourceIgnoresOutputOptions` | src/plugin.js:39 | the source path does not depend on the bundle's output options |
| `BundleProperties.FileOutputLandsBesideFile` | src/plugin.js:38-39 | with `file` set to `dir/name`, the archive is moved into `dir` |
| `BundleProperties.MissingOutputLocationReported` | src/plugin.js:38-41 | with neither `dir` nor `file` set, `dirname` throws after the command (and the read); the error is reported and nothing is moved |
| `BundleProperties.SuppliedDescriptorSkipsRead` | src/plugin.js:36 | a supplied descriptor is used as it is: the reader is never called and cannot affect the run |
| `BundleProperties.ReadFollowsCommand` | src/plugin.js:35-36 | without a supplied descriptor, it is read from `rootDir` right after the command succeeds, and a failed read is reported and stops the run |
| `BundleProperties.MoverFailureReportedOnce` | src/plugin.js:39-41 | a failing mover is reported once, and neither the command nor the move is retried |
| `BundleProperties.OutputDirOptionIgnored` | src/plugin.js:14-21 | the `outputDir` option is accepted but never read: changing it leaves the run unchanged |
| `BundleProperties.PackCommandChoice` | src/plugin.js:14-21 | the shell receives `npm pack` when no pack command is configured, and the configured command verbatim otherwise |
| `BundleProperties.ScopedPackageMovedToDir` | src/plugin.js:24-39 | a scoped package with a supplied descriptor and `dir` set moves `scope-pkg-version.tgz` from `rootDir` to `dir`, and nothing is reported |
| `BundleProperties.UnscopedPackageMovedBesideFile` | src/plugin.js:24-39 | an unscoped package with `file` set to `dir/name` moves `name-version.tgz` from `rootDir` to `dir`, and nothing is reported |

## Left out

- `readPackageJson` (lines 6-9) finds the package root and reads it through `pkg-dir` and `fs-extra`. That is file-system I/O. It is a parameter: a function from `rootDir` to a descriptor or an error.
- The real mover `fs.move` (line 11) and the real shell `execa.command` (line 19) are I/O. They are parameters of the model. Exit codes and `stdio` inheritance are not modelled.
- The hook's `async` behaviour is modelled as strict sequencing: each step finishes, or throws, before the next starts. Concurrency with other Rollup hooks is left out.
- `Paths.Join` and `Paths.Dirname` do not normalise paths. They ignore `.` and `..` segments, repeated slashes, and trailing slashes given to `dirname`. Node's `path` module is not part of this model. The model also differs from Node on the common bare `file: "bundle.js"`: `Dirname` gives `.`, and `Join(".", f)` gives `./f` where Node's `join` gives `f`. `DirnameOfJoin` and `FileOutputLandsBesideFile` state the cases where the two agree: a non-empty directory with no trailing slash and no `.`, `..` or repeated `/` segments, and a name that is not empty, `.` or `..` and has no `/`.
- Options given explicitly as `undefined` are not modelled. Such a value overrides the default through the object spread; the model treats every missing option as "use the default".
- A descriptor without a string `name` or `version` is not modelled, because `PackageJson` has string fields. In the source the two cases differ. A non-string `name` throws at line 25, where `replace` is called on it, and is reported at line 41. A missing or non-string `version` does not throw: the template literal at line 27 turns it into a string (`lodash-undefined.tgz`), and the run goes on to the mover at line 39.
- The plugin's `name` field (line 31) is a constant with no behaviour.
- The `outputDir` option: test/plugin.test.js:57-66 expects `outputDir` to redirect the move, but src/plugin.js never reads that option. The model follows the source, and `BundleProperties.OutputDirOptionIgnored` states that the option has no effect.
- The concrete test cases in test/plugin.test.js are proved in general form rather than as literal strings. `ScopedPackageMovedToDir` covers lines 22-30, `UnscopedPackageMovedBesideFile` covers lines 47-55, and `PackCommandChoice` covers lines 68-86. The real-filesystem test and rollup.test.config.js are not part of this model.

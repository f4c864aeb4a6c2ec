# Bati test orchestrator: a Dafny model of the workspace materializer

Bati's end-to-end test orchestrator (`packages/tests/src/index.ts`) does four things. It
expands every test file's flag matrix into variants. It generates a project directory for each
kept variant. It patches each directory's `package.json` and `tsconfig.json` so the project
can run inside one aggregated workspace. Then it writes that workspace's root files and hands
the whole tree to turbo. This project models the parts of that routine that decide what ends
up on disk and on turbo's command line:

- **`ManifestPatch`** (pure, on parsed JSON values): the two manifest patches,
  `updatePackageJson` and `updateTsconfig`. Each is modelled as a function from the parsed
  document to `Ok(new document)` or `Err(the TypeError it throws)`. JavaScript's strict-mode
  semantics are written out:
  - assigning a property to a string, number or boolean throws;
  - a named property assigned to an array is lost when the document is serialised;
  - `??=` replaces a missing or `null` member;
  - the `lint` test uses truthiness, then `includes`/`replace`. On an array, `includes`
    exists (element membership) but `replace` does not.
- **`Strings`**: the two string built-ins the lint rewrite relies on, `includes` and
  `replace`. `replace` is modelled with a string pattern and a replacement that holds no `$`
  patterns, so it replaces the first occurrence only and inserts the replacement literally.
- **`Materializer`** (imperative): a `ProjectDir` class whose two fields are the directory's
  parsed manifests.
  - `UpdatePackageJson` and `UpdateTsconfig` patch the parsed document step by step, as the
    source does, and store it in the field only when every step succeeds. A step that throws
    leaves the file unwritten.
  - Both methods are proved equal to the pure patches.
  - `MaterializeAll` runs every variant's patches in sequence, each variant on its own files,
    and passes exactly when every variant's patches succeed.
- **`Variants`** (imperative): the nested `for` loops with the `LA_TEMP` carve-out that choose
  the variants. They are proved equal to a reference definition: filter all matrix entries,
  in order, by `Keep`.
- **`Turborepo`** (imperative): the argument list of the turbo run.
- **`Workspace`** (pure): the root `package.json`, `pnpm-workspace.yaml` and `turbo.json`.
  This covers which workspace format each package manager gets, and the task graph that the
  turbo pipeline declares.

Inputs that come from the environment are parameters: the bun probe (`bunExists`), `CI`,
`RUNNER_TEMP` (the empty string when unset), `tmpdir()`, the vitest and turbo versions pinned
in the orchestrator's own manifest, and the basename of each project directory.

Outside CI the run passes no `--concurrency` option, so turbo's default applies; under CI it
passes `--concurrency=2` (`packages/tests/src/index.ts:155-163`). `Turborepo.TurboArgs` states
this.

## Model

| member | source | states |
|---|---|---|
| Strings.IndexOfSpec | packages/tests/src/index.ts:24 | `indexOf`/`includes`: when it returns an index, the pattern occurs there and at no earlier index; when it returns none, the pattern occurs nowhere |
| Strings.ContainsIff | packages/tests/src/index.ts:24 | `s.includes(pat)` holds exactly when some occurrence of `pat` exists in `s` |
| Strings.ReplaceFirstSpec | packages/tests/src/index.ts:25 | `replace` with a string pattern returns the string unchanged when the pattern is absent; otherwise it splices the replacement over the first occurrence and keeps the text on both sides |
| Strings.ReplaceFirstInserts | packages/tests/src/index.ts:25 | after a replacement the result contains the replacement text, and its length is the old length minus the pattern's length plus the replacement's length |
| ManifestPatch.RewriteLint | packages/tests/src/index.ts:24-26 | the lint step on the scripts value: a truthy lint string containing `eslint` gets its first `"eslint "` made strict; a lint array holding `"eslint"` throws (no `replace`); a truthy value that is neither a string nor an array throws (no `includes`); an array without `"eslint"` is kept; anything else is kept; its properties are stated by `RewriteLintSpec` |
| ManifestPatch.RewriteLintSpec | packages/tests/src/index.ts:24-26 | on a scripts object the step throws exactly when the lint value's test throws; otherwise the keys are kept, `lint` becomes `StrictLint` of the old value, and every other script is unchanged |
| ManifestPatch.LintChangedIff | packages/tests/src/index.ts:24-26 | the lint script changes exactly when it is a string that contains `"eslint "`; a non-string or a string without `"eslint "` is left as it is |
| ManifestPatch.LintRewritesFirstOccurrence | packages/tests/src/index.ts:25 | when the lint script changes, only its first `"eslint "` becomes `"eslint --max-warnings=0 "`; the text before and after is kept |
| ManifestPatch.BareEslintKept | packages/tests/src/index.ts:24-25 | a lint script of exactly `"eslint"` passes the `includes("eslint")` test but has no `"eslint "`, so it stays unchanged |
| ManifestPatch.StrictLintNotIdempotent | packages/tests/src/index.ts:25 | applying the rewrite twice changes the script again, because the strict text itself starts with `"eslint "` |
| ManifestPatch.PatchScriptsSpec | packages/tests/src/index.ts:22-27 | the scripts steps throw exactly on a primitive `scripts` or on a lint value whose test throws; an object gains `test` and `typecheck`, gets a strict `lint` and keeps every other script; an array is kept as it is |
| ManifestPatch.PatchDevDependenciesSpec | packages/tests/src/index.ts:28-30 | the devDependencies steps throw exactly on a primitive; an object gains the tests-utils link and the pinned vitest and keeps every other dependency; an array is kept as it is |
| ManifestPatch.PatchedPackageJson | packages/tests/src/index.ts:18-32 | the document `updatePackageJson` writes, or the TypeError it throws: name set, `scripts ??= {}` then the scripts steps, `devDependencies ??= {}` then the dependency steps, each stopping at the first throw; its properties are stated by `PackageJsonPatchErrors` and `PackageJsonPatchSpec` |
| ManifestPatch.PackageJsonPatchErrors | packages/tests/src/index.ts:18-32 | `updatePackageJson` throws exactly when `scripts` or `devDependencies` (after `??= {}`) is a primitive, or when the lint test throws |
| ManifestPatch.PackageJsonPatchSpec | packages/tests/src/index.ts:18-32 | when it does not throw, the written manifest has exactly the old keys plus `name`, `scripts` and `devDependencies`; `name` is the directory's basename; the scripts and dependencies are patched as above, including when they were missing or null; every other top-level key is unchanged |
| ManifestPatch.PatchedTsconfig | packages/tests/src/index.ts:34-41 | the document `updateTsconfig` writes, or the TypeError `push` throws on a non-array `exclude`; its properties are stated by `TsconfigPatchSpec` |
| ManifestPatch.TsconfigPatchSpec | packages/tests/src/index.ts:34-41 | `updateTsconfig` throws exactly when `exclude` is set to something other than an array; otherwise `exclude` holds its old entries followed by `*.timestamp-*` (just that glob when it was missing or null), and every other key is unchanged |
| ManifestPatch.TsconfigPatchNotIdempotent | packages/tests/src/index.ts:37-39 | patching an already patched tsconfig succeeds and appends the glob a second time, so the list grows by one and differs |
| Materializer.ProjectDir.UpdatePackageJson | packages/tests/src/index.ts:18-32 | the step-by-step in-place patch reports the pure patch's outcome; `package.json` becomes the patched document on success and stays as it was on a throw; `tsconfig.json` is untouched |
| Materializer.ProjectDir.UpdateTsconfig | packages/tests/src/index.ts:34-41 | the in-place `??=` and `push` report the pure patch's outcome; `tsconfig.json` becomes the patched document or stays as it was; `package.json` is untouched |
| Materializer.ProjectDir.Materialize | packages/tests/src/index.ts:211-216 | both patches run whether or not the other throws; each file ends as its own patch leaves it; the variant passes exactly when both patches succeed |
| Materializer.MaterializeOne | packages/tests/src/index.ts:209-216 | materializing one variant in a fresh directory yields that variant's patched files, and passes exactly when both of its patches succeed |
| Materializer.MaterializeAll | packages/tests/src/index.ts:208-223 | the run's files are the generated variants each materialized on its own, in order (`MapSeq`); the run passes exactly when every variant passes (`AllOf`) |
| Materializer.MapSeqPointwise | packages/tests/src/index.ts:208-223 | the i-th result of the run is the i-th variant materialized alone, whatever the other variants hold, and there is one result per variant |
| Materializer.AllOfIff | packages/tests/src/index.ts:223 | the run passes exactly when every variant's patches succeed (`Promise.all`), stated over every position |
| Variants.Selected | packages/tests/src/index.ts:197-207 | the reference definition of the selection: all matrix entries (`MatrixJobs`: a test file's matrix entries as jobs, in matrix order), test file by test file, filtered in order by `Keep`; characterised by `SelectedMembership`, `SelectedInOrder` and `EmptyMatrixAddsNothing` |
| Variants.SelectVariants | packages/tests/src/index.ts:197-207 | the nested loops with the `continue` on the `LA_TEMP` condition schedule exactly `Selected`: every matrix entry of every test file, in order, filtered by `Keep` |
| Variants.FilterConcat | packages/tests/src/index.ts:197-207 | filtering commutes with concatenation, which is what lets the loop filter one entry at a time |
| Variants.FilterMembership | packages/tests/src/index.ts:200-207 | a job survives the filter exactly when it was present and its flags pass the `LA_TEMP` condition |
| Variants.FilterIsSubsequence | packages/tests/src/index.ts:197-207 | the filter keeps the order of the jobs it keeps |
| Variants.AllJobsMembership | packages/tests/src/index.ts:197-198 | a job is among the unfiltered jobs exactly when some test file's matrix holds its flags |
| Variants.AllJobsConcat | packages/tests/src/index.ts:197-198 | expanding a concatenation of test-file lists expands each list, in order |
| Variants.SelectedMembership | packages/tests/src/index.ts:197-207 | a job is selected exactly when its flags include `solid` and none of `plausible.io`, `vercel`, `h3`, and some test file's matrix holds them |
| Variants.SelectedInOrder | packages/tests/src/index.ts:197-208 | the selected jobs are a subsequence of all matrix entries: expansion order is preserved |
| Variants.EmptyMatrixAddsNothing | packages/tests/src/index.ts:198 | a test file with an empty matrix contributes no variant, wherever it stands among the test files |
| Turborepo.TurboArgs | packages/tests/src/index.ts:141-163 | runner subcommand (`x` under bun, `exec` otherwise), then `turbo run test lint typecheck build` and the three fixed options; under CI `--concurrency=2` and `--env-mode=loose`; last, exactly one `--cache-dir="…/bati-cache"`, under `RUNNER_TEMP` or `tmpdir()` in CI and under `tmpdir()` locally; 13 arguments in CI, 11 otherwise |
| Workspace.RootPackageJson | packages/tests/src/index.ts:59-72 | the root manifest is named `bati-tests`, is private, has turbo pinned as its only dev dependency, and has a `workspaces: ["packages/*"]` key exactly under bun |
| Workspace.TurboConfig | packages/tests/src/index.ts:84-110 | the `turbo.json` document; its contents are stated by `TurboConfigContents`, `TurboPipelineContents` and `TurboDependencies` |
| Workspace.TurboPipelineContents | packages/tests/src/index.ts:89-103 | `build` depends on the dependencies' `^build` and outputs `dist/**`; `test`, `lint` and `typecheck` each depend on the package's own `build` |
| Workspace.TurboConfigContents | packages/tests/src/index.ts:84-110 | `turbo.json` references turbo's schema, declares exactly the four tasks build, test, lint and typecheck, and turns the remote-cache signature off |
| Workspace.TurboDependencies | packages/tests/src/index.ts:89-103 | the `dependsOn` names of each of the four tasks, read back from the written configuration |
| Workspace.TaskGraphOf | packages/tests/src/index.ts:89-103 | for any pipeline with those four tasks and those dependencies, every dependency names a pipeline task, and build, test, lint, typecheck is an order that meets every same-package dependency |
| Workspace.TurboTaskGraph | packages/tests/src/index.ts:89-103 | the written turbo configuration has a closed task graph, and building first satisfies every same-package dependency |
| Workspace.RootFiles | packages/tests/src/index.ts:225-233 | the workspace root gets `package.json` and `turbo.json` always, and `pnpm-workspace.yaml` exactly when bun is absent |
| Workspace.YamlDeclaresGlob | packages/tests/src/index.ts:74-82 | `pnpm-workspace.yaml` starts with a `packages:` key and lists `"packages/*"` as an entry |
| Workspace.ExactlyOneWorkspaceFormat | packages/tests/src/index.ts:59-82 | the member glob is declared inline in the root manifest exactly under bun, and in `pnpm-workspace.yaml` exactly without bun, so each run uses one format only |

## Left out

- File I/O (`readFile`, `writeFile`, `copyFile`, `rm`): a file is modelled by its parsed JSON value. Parsing, `JSON.stringify` formatting and key order are not modelled.
- JSON numbers are integers; floating point is not modelled.
- Strings are sequences of Unicode characters, not of UTF-16 code units: positions after an astral-plane character differ from JavaScript's, and a lone surrogate from `JSON.parse` has no representation. The `includes`/`replace` results for the ASCII patterns of the lint rewrite are not affected.
- The manifests' top-level value is assumed to be a JSON object. A top-level array or primitive is not modelled.
- `path.join` and `basename` are not modelled as path algebra. `basename(projectDir)` is a parameter, and `join(dir, "bati-cache")` is `dir + "/" + "bati-cache"`, with the POSIX separator `/` only (not the `\` that `path.join` uses on Windows) and no normalisation of `.`, `..` or duplicate separators.
- `execLocalBati` (the generator run that creates each project directory) calls code that is not part of this model. Its result enters `Materializer.MaterializeAll` as the `generated` files. A generator failure is not modelled: in the source it rejects that variant's `limit` task and so fails the run through `Promise.all` (`packages/tests/src/index.ts:210`, `:223`); here every variant in `generated` is assumed to have been generated.
- `copyFile` of the variant's test file (`Job.testFile`) into its directory is not modelled: it copies a file the model does not represent.
- `updateVitestConfig` writes fixed content, the same for every variant. It is not modelled.
- The `p-limit` pool and the real concurrency of `Promise.all` are not modelled. Variants are materialized one after another, each in its own directory; nothing is shared between them, so the order does not change the files.
- Materializer.MaterializeAll: runs every variant to completion. In the source, `await Promise.all(promises)` rejects at the first failing variant; `main` stops there, and the final cleanup removes the whole temporary tree while other queued or running variants may not have finished. So the source promises nothing about the other variants' files after a failure.
- Materializer.MaterializeAll: reports the first failing variant in variant order. The source can surface whichever rejection settles first in time, which the model does not capture.
- Materializer.ProjectDir.Materialize: reports the `package.json` error when both patches throw. `Promise.all` can report either one, depending on timing.
- `linkTestUtils`, `packageManagerInstall` and the launch of turbo (`execa` calls with timeouts, `shell: true` and inherited stdio) are process launches. They are not modelled; only the argument list of the turbo run is.
- The `console.log` of the cache directory is output only and is not modelled.
- `isVerdaccioRunning` is a network probe and is not modelled.
- `initTmpDir`, `listTestFiles` and `loadTestFileMatrix` (temporary directory setup, test discovery, matrix expansion) are not part of this model. `Variants.SelectVariants` starts from the already-expanded matrices.
- Turborepo.TurboArgs: `process.env.CI` is modelled as a boolean (set and non-empty versus unset or empty), not as an arbitrary string.

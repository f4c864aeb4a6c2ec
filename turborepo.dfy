/** The argument list of the turbo run over the aggregated workspace (`execTurborepo`). */
module Turborepo {
  import opened Strings

  /** The tasks requested and the three options every run passes. */
  const TasksAndOptions: seq<string> := [
    "turbo", "run", "test", "lint", "typecheck", "build",
    "--output-logs=errors-only", "--no-update-notifier", "--framework-inference=false"
  ]
  const CacheDirOption := "--cache-dir="
  const CacheDirName := "bati-cache"

  /** The package runner's "run a binary" subcommand: `bun x` or `pnpm exec`. */
  function Runner(bunExists: bool): string
  {
    if bunExists then "x" else "exec"
  }

  /** `path.join(dir, name)` for a directory without a trailing separator. */
  function JoinPath(dir: string, name: string): string
  {
    dir + "/" + name
  }

  /** The cache directory: under CI `RUNNER_TEMP || tmpdir()`, locally `tmpdir()`.
      `runnerTemp` is the empty string when the variable is unset. */
  function CacheDir(ci: bool, runnerTemp: string, tmpDir: string): string
  {
    JoinPath(if ci && runnerTemp != "" then runnerTemp else tmpDir, CacheDirName)
  }

  function CacheDirArg(dir: string): string
  {
    CacheDirOption + "\"" + dir + "\""
  }

  /** How many arguments are `--cache-dir=` options. */
  function CountCacheDirArgs(args: seq<string>): nat
  {
    if args == [] then 0
    else (if OccursAt(args[|args| - 1], CacheDirOption, 0) then 1 else 0) + CountCacheDirArgs(args[..|args| - 1])
  }

  /** Counting distributes over concatenation. */
  lemma {:induction false} CountConcat(a: seq<string>, b: seq<string>)
    ensures CountCacheDirArgs(a + b) == CountCacheDirArgs(a) + CountCacheDirArgs(b)
    decreases |b|
  {
    if b == [] {
      assert a + b == a;
    } else {
      var init := b[..|b| - 1];
      assert (a + b)[..|a + b| - 1] == a + init;
      CountConcat(a, init);
    }
  }

  /** An argument shorter than the option, or differing from it at its fourth character,
      is not a `--cache-dir=` option. */
  lemma NotCacheDir(s: string)
    requires |s| < |CacheDirOption| || s[3] != 'a'
    ensures !OccursAt(s, CacheDirOption, 0)
  {
    if |CacheDirOption| <= |s| {
      assert s[..|CacheDirOption|][3] == s[3];
    }
  }

  /** None of the fixed arguments is a `--cache-dir=` option. */
  lemma {:induction false} NoCacheDirIn(args: seq<string>)
    requires forall k :: 0 <= k < |args| ==> !OccursAt(args[k], CacheDirOption, 0)
    ensures CountCacheDirArgs(args) == 0
    decreases |args|
  {
    if args != [] {
      NoCacheDirIn(args[..|args| - 1]);
    }
  }

  /** Builds the argument list: runner, tasks, fixed options; under CI a concurrency cap of 2
      and loose env mode; then the cache directory. */
  method TurboArgs(bunExists: bool, ci: bool, runnerTemp: string, tmpDir: string) returns (args: seq<string>)
    ensures |args| == if ci then 13 else 11
    ensures args[..10] == [Runner(bunExists)] + TasksAndOptions
    ensures ci ==> args[10..12] == ["--concurrency=2", "--env-mode=loose"]
    ensures args[|args| - 1] == CacheDirArg(CacheDir(ci, runnerTemp, tmpDir))
    ensures CountCacheDirArgs(args) == 1
  {
    args := [Runner(bunExists)] + TasksAndOptions;
    forall k | 0 <= k < |args| ensures !OccursAt(args[k], CacheDirOption, 0) {
      NotCacheDir(args[k]);
    }
    NoCacheDirIn(args);
    ghost var fixed := args;
    if ci {
      var cacheDir := JoinPath(if runnerTemp != "" then runnerTemp else tmpDir, CacheDirName);
      args := args + ["--concurrency=2"];
      args := args + ["--env-mode=loose"];
      forall k | 0 <= k < |args| ensures !OccursAt(args[k], CacheDirOption, 0) {
        NotCacheDir(args[k]);
      }
      NoCacheDirIn(args);
      ghost var beforeCache := args;
      args := args + [CacheDirArg(cacheDir)];
      CountConcat(beforeCache, [CacheDirArg(cacheDir)]);
    } else {
      args := args + [CacheDirArg(JoinPath(tmpDir, CacheDirName))];
      CountConcat(fixed, [CacheDirArg(JoinPath(tmpDir, CacheDirName))]);
    }
  }
}

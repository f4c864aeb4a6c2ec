/** A materialized variant's project directory and the steps that patch it in place. */
module Materializer {
  import opened Wrappers
  import opened JsonModel
  import opened ManifestPatch

  /** One generated project directory, owned by the orchestrator for the whole run. */
  class ProjectDir {
    /** basename(projectDir): the package name the variant gets in the workspace */
    const name: string
    /** the parsed contents of the directory's package.json */
    var packageJson: map<string, Json>
    /** the parsed contents of the directory's tsconfig.json */
    var tsconfig: map<string, Json>

    constructor (name: string, packageJson: map<string, Json>, tsconfig: map<string, Json>)
      ensures this.name == name && this.packageJson == packageJson && this.tsconfig == tsconfig
    {
      this.name := name;
      this.packageJson := packageJson;
      this.tsconfig := tsconfig;
    }

    /** `updatePackageJson(projectDir)`: parse, patch step by step, write back. A step that
        throws leaves package.json as it was. */
    method UpdatePackageJson(vitestVersion: string) returns (outcome: Outcome<PatchError>)
      modifies this
      ensures outcome == OutcomeOf(PatchedPackageJson(old(packageJson), name, vitestVersion))
      ensures packageJson == Written(PatchedPackageJson(old(packageJson), name, vitestVersion), old(packageJson))
      ensures tsconfig == old(tsconfig)
    {
      var pkg := packageJson;
      pkg := pkg["name" := Str(name)];
      if IsNullish(pkg, "scripts") {
        pkg := pkg["scripts" := Obj(map[])];
      }
      var step := SetProperty(pkg["scripts"], "test", Str(TestScript), "scripts");
      if step.Err? { return Fail(step.error); }
      step := RewriteLint(step.value);
      if step.Err? { return Fail(step.error); }
      step := SetProperty(step.value, "typecheck", Str(TypecheckScript), "scripts");
      if step.Err? { return Fail(step.error); }
      pkg := pkg["scripts" := step.value];
      if IsNullish(pkg, "devDependencies") {
        pkg := pkg["devDependencies" := Obj(map[])];
      }
      step := SetProperty(pkg["devDependencies"], TestsUtilsName, Str(TestsUtilsLink), "devDependencies");
      if step.Err? { return Fail(step.error); }
      step := SetProperty(step.value, "vitest", Str(vitestVersion), "devDependencies");
      if step.Err? { return Fail(step.error); }
      pkg := pkg["devDependencies" := step.value];
      packageJson := pkg;
      outcome := Pass;
    }

    /** `updateTsconfig(projectDir)`: `exclude ??= []`, then push the timestamp glob. */
    method UpdateTsconfig() returns (outcome: Outcome<PatchError>)
      modifies this
      ensures outcome == OutcomeOf(PatchedTsconfig(old(tsconfig)))
      ensures tsconfig == Written(PatchedTsconfig(old(tsconfig)), old(tsconfig))
      ensures packageJson == old(packageJson)
    {
      var config := tsconfig;
      if IsNullish(config, "exclude") {
        config := config["exclude" := Arr([])];
      }
      match config["exclude"] {
        case Arr(items) =>
          config := config["exclude" := Arr(items + [Str(TimestampGlob)])];
        case _ =>
          return Fail(NotAFunction("exclude.push"));
      }
      tsconfig := config;
      outcome := Pass;
    }

    /** The manifest part of one variant's materialization, which runs both patches side by
        side: each file is patched on its own, and the variant fails if either patch throws. */
    method Materialize(vitestVersion: string) returns (outcome: Outcome<PatchError>)
      modifies this
      ensures packageJson == Written(PatchedPackageJson(old(packageJson), name, vitestVersion), old(packageJson))
      ensures tsconfig == Written(PatchedTsconfig(old(tsconfig)), old(tsconfig))
      ensures outcome.Pass? <==> Succeeds(ProjectFiles(name, old(packageJson), old(tsconfig)), vitestVersion)
    {
      var pkgOutcome := UpdatePackageJson(vitestVersion);
      var tsOutcome := UpdateTsconfig();
      outcome := if pkgOutcome.Fail? then pkgOutcome else tsOutcome;
    }
  }

  /** The files of one generated project directory, as the generator leaves them. */
  datatype ProjectFiles = ProjectFiles(name: string, packageJson: map<string, Json>, tsconfig: map<string, Json>)

  /** Both patches of a variant succeed on its generated files. */
  predicate Succeeds(p: ProjectFiles, vitestVersion: string)
  {
    PatchedPackageJson(p.packageJson, p.name, vitestVersion).Ok? && PatchedTsconfig(p.tsconfig).Ok?
  }

  /** A variant's files once both patches have run (a file whose patch threw is unchanged). */
  function MaterializedFiles(p: ProjectFiles, vitestVersion: string): ProjectFiles
  {
    ProjectFiles(
      p.name,
      Written(PatchedPackageJson(p.packageJson, p.name, vitestVersion), p.packageJson),
      Written(PatchedTsconfig(p.tsconfig), p.tsconfig))
  }

  /** Materializing one variant, as a function value the run maps over its variants. */
  function MaterializeWith(vitestVersion: string): ProjectFiles -> ProjectFiles
  {
    p => MaterializedFiles(p, vitestVersion)
  }

  /** Whether one variant materializes without error, as a function value. */
  function SucceedsWith(vitestVersion: string): ProjectFiles -> bool
  {
    p => Succeeds(p, vitestVersion)
  }

  /** `xs` with `f` applied to each element, in order. */
  function MapSeq<A, B>(f: A -> B, xs: seq<A>): seq<B>
  {
    if xs == [] then [] else MapSeq(f, xs[..|xs| - 1]) + [f(xs[|xs| - 1])]
  }

  /** `p` holds of every element of `xs`. */
  predicate AllOf<A>(p: A -> bool, xs: seq<A>)
  {
    xs == [] || (AllOf(p, xs[..|xs| - 1]) && p(xs[|xs| - 1]))
  }

  /** The i-th element of the mapped sequence is `f` of the i-th element alone. */
  lemma {:induction false} MapSeqPointwise<A, B>(f: A -> B, xs: seq<A>)
    ensures |MapSeq(f, xs)| == |xs|
    ensures forall i :: 0 <= i < |xs| ==> MapSeq(f, xs)[i] == f(xs[i])
  {
    if xs != [] {
      MapSeqPointwise(f, xs[..|xs| - 1]);
    }
  }

  /** `AllOf` is the universal statement over the positions of `xs`. */
  lemma {:induction false} AllOfIff<A>(p: A -> bool, xs: seq<A>)
    ensures AllOf(p, xs) <==> forall i :: 0 <= i < |xs| ==> p(xs[i])
  {
    if xs != [] {
      AllOfIff(p, xs[..|xs| - 1]);
    }
  }

  /** Materializes one variant in a fresh directory holding its generated files. */
  method MaterializeOne(files: ProjectFiles, vitestVersion: string)
    returns (after: ProjectFiles, outcome: Outcome<PatchError>)
    ensures after == MaterializeWith(vitestVersion)(files)
    ensures outcome.Pass? <==> SucceedsWith(vitestVersion)(files)
  {
    var dir := new ProjectDir(files.name, files.packageJson, files.tsconfig);
    outcome := dir.Materialize(vitestVersion);
    after := ProjectFiles(dir.name, dir.packageJson, dir.tsconfig);
  }

  /** Materializes the selected variants one after the other, each in a directory of its own:
      every variant's files are patched on their own, whatever the others hold, and the run
      passes exactly when every variant's patches succeed. `generated` holds one directory per
      job of `Variants.SelectVariants`, in the same order: the files the generator produced
      for that job's flags. */
  method MaterializeAll(generated: seq<ProjectFiles>, vitestVersion: string)
    returns (written: seq<ProjectFiles>, outcome: Outcome<PatchError>)
    ensures written == MapSeq(MaterializeWith(vitestVersion), generated)
    ensures outcome.Pass? <==> AllOf(SucceedsWith(vitestVersion), generated)
  {
    written := [];
    outcome := Pass;
    var k := 0;
    while k < |generated|
      invariant 0 <= k <= |generated|
      invariant written == MapSeq(MaterializeWith(vitestVersion), generated[..k])
      invariant outcome.Pass? <==> AllOf(SucceedsWith(vitestVersion), generated[..k])
    {
      var after, result := MaterializeOne(generated[k], vitestVersion);
      assert generated[..k + 1][..k] == generated[..k];
      written := written + [after];
      if outcome.Pass? {
        outcome := result;
      }
      k := k + 1;
    }
    assert generated[..k] == generated;
  }
}

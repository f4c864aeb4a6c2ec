/** The documents written at the root of the aggregated workspace: the root manifest, the
    pnpm workspace declaration and the turbo pipeline configuration. */
module Workspace {
  import opened Wrappers
  import opened JsonModel
  import opened Strings

  /** The glob that makes every materialized variant a member package. */
  const WorkspaceGlob := "packages/*"
  const RootName := "bati-tests"

  /** `createWorkspacePackageJson`: a private manifest with turbo as its only dev dependency,
      and an inline `workspaces` list only under bun (the conditional spread). `turboVersion`
      is the orchestrator's own turbo version. */
  function RootPackageJson(bunExists: bool, turboVersion: string): (j: Json)
    ensures j.Obj?
    ensures j.fields.Keys == {"name", "private", "devDependencies"} + (if bunExists then {"workspaces"} else {})
    ensures Get(j, ["name"]) == Some(Str(RootName))
    ensures Get(j, ["private"]) == Some(Bool(true))
    ensures Get(j, ["devDependencies"]) == Some(Obj(map["turbo" := Str(turboVersion)]))
    ensures Get(j, ["workspaces"]).Some? <==> bunExists
    ensures bunExists ==> Get(j, ["workspaces"]) == Some(Arr([Str(WorkspaceGlob)]))
  {
    var base := map[
      "name" := Str(RootName),
      "private" := Bool(true),
      "devDependencies" := Obj(map["turbo" := Str(turboVersion)])
    ];
    Obj(if bunExists then base["workspaces" := Arr([Str(WorkspaceGlob)])] else base)
  }

  /** `createPnpmWorkspaceYaml`: the text of pnpm-workspace.yaml. */
  const PnpmWorkspaceYaml: string := "packages:\n  - \"packages/*\"\n"

  /** `createTurboConfig`: the turbo pipeline configuration. */
  function TurboConfig(): Json
  {
    Obj(map[
      "$schema" := Str("https://turbo.build/schema.json"),
      "pipeline" := Obj(map[
        "build" := Obj(map["dependsOn" := Arr([Str("^build")]), "outputs" := Arr([Str("dist/**")])]),
        "test" := Obj(map["dependsOn" := Arr([Str("build")])]),
        "lint" := Obj(map["dependsOn" := Arr([Str("build")])]),
        "typecheck" := Obj(map["dependsOn" := Arr([Str("build")])])
      ]),
      "remoteCache" := Obj(map["signature" := Bool(false)])
    ])
  }

  /** `test`, `lint` and `typecheck` wait for the package's own `build`; `build` waits for
      the builds of the package's dependencies and outputs the `dist` tree. */
  lemma TurboPipelineContents()
    ensures Get(TurboConfig(), ["pipeline", "build", "dependsOn"]) == Some(Arr([Str("^build")]))
    ensures Get(TurboConfig(), ["pipeline", "build", "outputs"]) == Some(Arr([Str("dist/**")]))
    ensures Get(TurboConfig(), ["pipeline", "test", "dependsOn"]) == Some(Arr([Str("build")]))
    ensures Get(TurboConfig(), ["pipeline", "lint", "dependsOn"]) == Some(Arr([Str("build")]))
    ensures Get(TurboConfig(), ["pipeline", "typecheck", "dependsOn"]) == Some(Arr([Str("build")]))
  {
    var pipeline := TurboConfig().fields["pipeline"];
    assert Get(TurboConfig(), ["pipeline", "build", "dependsOn"]) == Get(pipeline, ["build", "dependsOn"]);
    assert Get(TurboConfig(), ["pipeline", "build", "outputs"]) == Get(pipeline, ["build", "outputs"]);
    assert Get(TurboConfig(), ["pipeline", "test", "dependsOn"]) == Get(pipeline, ["test", "dependsOn"]);
    assert Get(TurboConfig(), ["pipeline", "lint", "dependsOn"]) == Get(pipeline, ["lint", "dependsOn"]);
    assert Get(TurboConfig(), ["pipeline", "typecheck", "dependsOn"]) == Get(pipeline, ["typecheck", "dependsOn"]);
  }

  /** The schema reference, the four pipeline tasks, and no remote-cache signature. */
  lemma TurboConfigContents()
    ensures Get(TurboConfig(), ["$schema"]) == Some(Str("https://turbo.build/schema.json"))
    ensures PipelineTasks(TurboConfig()) == {"build", "test", "lint", "typecheck"}
    ensures Get(TurboConfig(), ["remoteCache", "signature"]) == Some(Bool(false))
  {
    assert Get(TurboConfig(), ["remoteCache", "signature"]) == Get(TurboConfig().fields["remoteCache"], ["signature"]);
  }

  /** What a root file holds. */
  datatype FileContent = JsonFile(doc: Json) | TextFile(text: string)

  /** The files the main routine writes at the workspace root: the manifest, the pnpm
      declaration only without bun, and the turbo configuration. */
  function RootFiles(bunExists: bool, turboVersion: string): (files: map<string, FileContent>)
    ensures files.Keys == {"package.json", "turbo.json"} + (if bunExists then {} else {"pnpm-workspace.yaml"})
    ensures files["package.json"] == JsonFile(RootPackageJson(bunExists, turboVersion))
    ensures files["turbo.json"] == JsonFile(TurboConfig())
    ensures !bunExists ==> files["pnpm-workspace.yaml"] == TextFile(PnpmWorkspaceYaml)
  {
    var always := map[
      "package.json" := JsonFile(RootPackageJson(bunExists, turboVersion)),
      "turbo.json" := JsonFile(TurboConfig())
    ];
    if bunExists then always else always["pnpm-workspace.yaml" := TextFile(PnpmWorkspaceYaml)]
  }

  // ---------------------------------------------------------------------------
  // Which files declare the member packages

  /** The root manifest lists `glob` in its inline `workspaces` array. */
  predicate DeclaredInline(files: map<string, FileContent>, glob: string)
  {
    && "package.json" in files
    && files["package.json"].JsonFile?
    && var ws := Get(files["package.json"].doc, ["workspaces"]);
       ws.Some? && ws.value.Arr? && Str(glob) in ws.value.items
  }

  /** pnpm-workspace.yaml exists and holds `glob` as an entry of its `packages` list. */
  predicate DeclaredInYaml(files: map<string, FileContent>, glob: string)
  {
    && "pnpm-workspace.yaml" in files
    && files["pnpm-workspace.yaml"].TextFile?
    && OccursAt(files["pnpm-workspace.yaml"].text, "packages:\n", 0)
    && Contains(files["pnpm-workspace.yaml"].text, "\n  - \"" + glob + "\"\n")
  }

  /** The member glob is declared in exactly one of the two workspace formats: inline under
      bun, in pnpm-workspace.yaml otherwise. */
  lemma ExactlyOneWorkspaceFormat(bunExists: bool, turboVersion: string)
    ensures DeclaredInline(RootFiles(bunExists, turboVersion), WorkspaceGlob) <==> bunExists
    ensures DeclaredInYaml(RootFiles(bunExists, turboVersion), WorkspaceGlob) <==> !bunExists
  {
    var files := RootFiles(bunExists, turboVersion);
    if bunExists {
      assert Get(files["package.json"].doc, ["workspaces"]) == Some(Arr([Str(WorkspaceGlob)]));
      assert "pnpm-workspace.yaml" !in files;
    } else {
      assert Get(files["package.json"].doc, ["workspaces"]).None?;
      YamlDeclaresGlob();
    }
  }

  /** The pnpm declaration lists the member glob. */
  lemma YamlDeclaresGlob()
    ensures OccursAt(PnpmWorkspaceYaml, "packages:\n", 0)
    ensures Contains(PnpmWorkspaceYaml, "\n  - \"" + WorkspaceGlob + "\"\n")
  {
    var entry := "\n  - \"" + WorkspaceGlob + "\"\n";
    assert entry == "\n  - \"packages/*\"\n";
    assert PnpmWorkspaceYaml == "packages:" + entry;
    assert PnpmWorkspaceYaml[9..9 + |entry|] == entry;
    ContainsAt(PnpmWorkspaceYaml, entry, 9);
  }

  // ---------------------------------------------------------------------------
  // The turbo task graph

  /** The string entries of a JSON array. */
  function StringItems(items: seq<Json>): (names: seq<string>)
    ensures forall n :: n in names <==> Str(n) in items
  {
    if items == [] then []
    else (if items[0].Str? then [items[0].s] else []) + StringItems(items[1..])
  }

  /** The `dependsOn` names of a pipeline task ([] when it declares none). */
  function DependsOn(config: Json, task: string): seq<string>
  {
    match Get(config, ["pipeline", task, "dependsOn"])
    case Some(Arr(items)) => StringItems(items)
    case _ => []
  }

  /** A `^`-prefixed dependency is on the same task of the package's upstream dependencies. */
  predicate IsUpstream(dep: string)
  {
    |dep| > 0 && dep[0] == '^'
  }

  function TaskName(dep: string): string
  {
    if IsUpstream(dep) then dep[1..] else dep
  }

  /** Running the tasks of one package in `order` meets every same-package dependency. */
  predicate RespectsLocalDependencies(config: Json, order: seq<string>)
  {
    forall p :: 0 <= p < |order| ==>
      forall d :: d in DependsOn(config, order[p]) && !IsUpstream(d) ==> d in order[..p]
  }

  /** Every dependency names a task of the pipeline, and build, test, lint, typecheck is an
      order of one package's tasks that meets every same-package dependency. */
  lemma TurboTaskGraph()
    ensures forall t, d :: t in PipelineTasks(TurboConfig()) && d in DependsOn(TurboConfig(), t) ==>
      TaskName(d) in PipelineTasks(TurboConfig())
    ensures RespectsLocalDependencies(TurboConfig(), ["build", "test", "lint", "typecheck"])
  {
    TurboConfigContents();
    TurboDependencies();
    TaskGraphOf(TurboConfig());
  }

  /** The task set of a pipeline configuration. */
  function PipelineTasks(config: Json): set<string>
  {
    var p := Get(config, ["pipeline"]);
    if p.Some? && p.value.Obj? then p.value.fields.Keys else {}
  }

  /** The graph facts follow from the four `dependsOn` lists alone. */
  lemma TaskGraphOf(c: Json)
    requires PipelineTasks(c) == {"build", "test", "lint", "typecheck"}
    requires DependsOn(c, "build") == ["^build"]
    requires DependsOn(c, "test") == ["build"]
    requires DependsOn(c, "lint") == ["build"]
    requires DependsOn(c, "typecheck") == ["build"]
    ensures forall t, d :: t in PipelineTasks(c) && d in DependsOn(c, t) ==> TaskName(d) in PipelineTasks(c)
    ensures RespectsLocalDependencies(c, ["build", "test", "lint", "typecheck"])
  {
    assert TaskName("^build") == "build";
    var order := ["build", "test", "lint", "typecheck"];
    forall p | 0 <= p < |order|
      ensures forall d :: d in DependsOn(c, order[p]) && !IsUpstream(d) ==> d in order[..p]
    {
      if p > 0 {
        assert order[..p][0] == "build";
      }
    }
  }

  /** The task set and the `dependsOn` names of each pipeline task. */
  lemma TurboDependencies()
    ensures DependsOn(TurboConfig(), "build") == ["^build"]
    ensures DependsOn(TurboConfig(), "test") == ["build"]
    ensures DependsOn(TurboConfig(), "lint") == ["build"]
    ensures DependsOn(TurboConfig(), "typecheck") == ["build"]
  {
    TurboPipelineContents();
    assert StringItems([Str("^build")]) == ["^build"] by {
      assert StringItems([Str("^build")][1..]) == [];
    }
    assert StringItems([Str("build")]) == ["build"] by {
      assert StringItems([Str("build")][1..]) == [];
    }
  }
}

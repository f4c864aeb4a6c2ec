/** The patches a materialized variant's manifests receive, so that the variant can run
    inside the aggregated workspace: `updatePackageJson` and `updateTsconfig`. */
module ManifestPatch {
  import opened Wrappers
  import opened JsonModel
  import opened Strings

  const TestScript := "vitest run"
  const TypecheckScript := "tsc --noEmit"
  const EslintPattern := "eslint "
  const EslintStrict := "eslint --max-warnings=0 "
  const TestsUtilsName := "@batijs/tests-utils"
  const TestsUtilsLink := "link:@batijs/tests-utils"
  const TimestampGlob := "*.timestamp-*"

  /** The TypeErrors a patch throws (the module runs in strict mode) on an unexpected
      document shape; a thrown patch leaves the file unwritten. */
  datatype PatchError =
    | CannotSetProperty(target: string, property: string)
    | NotAFunction(callee: string)

  /** `target[property] = value`, as the serialised file later shows it. */
  function SetProperty(target: Json, property: string, value: Json, targetName: string): Result<Json, PatchError>
  {
    match target
    case Obj(m) => Ok(Obj(m[property := value]))
    // a named property on an array is dropped by JSON.stringify
    case Arr(_) => Ok(target)
    case _ => Err(CannotSetProperty(targetName, property))
  }

  // ---------------------------------------------------------------------------
  // The lint rewrite

  /** The lint script after the rewrite, when the rewrite does not throw: a non-empty string
      that mentions eslint gets its first `"eslint "` made strict; anything else is kept.
      This is the specification of the lint step `RewriteLint` (see `RewriteLintSpec`). */
  function StrictLint(lint: Json): Json
  {
    if Truthy(lint) && lint.Str? && Contains(lint.s, "eslint")
    then Str(ReplaceFirst(lint.s, EslintPattern, EslintStrict))
    else lint
  }

  /** The lint condition throws: a truthy value other than a string or an array has no
      `includes`; an array has one (element membership) but no `replace`. */
  predicate LintThrows(lint: Json)
  {
    Truthy(lint) &&
    match lint
    case Str(_) => false
    case Arr(items) => Str("eslint") in items
    case _ => true
  }

  /** `if (scripts.lint && scripts.lint.includes("eslint")) scripts.lint = scripts.lint.replace(...)` */
  function RewriteLint(scripts: Json): Result<Json, PatchError>
  {
    if scripts.Obj? && "lint" in scripts.fields && Truthy(scripts.fields["lint"]) then
      match scripts.fields["lint"]
      case Str(s) =>
        if Contains(s, "eslint")
        then Ok(Obj(scripts.fields["lint" := Str(ReplaceFirst(s, EslintPattern, EslintStrict))]))
        else Ok(scripts)
      case Arr(items) =>
        if Str("eslint") in items then Err(NotAFunction("scripts.lint.replace")) else Ok(scripts)
      case _ => Err(NotAFunction("scripts.lint.includes"))
    else
      Ok(scripts)
  }

  /** `StrictLint` specifies the lint step: whenever `RewriteLint` does not throw on a scripts
      object, its `lint` is `StrictLint` of the old one, and every other script is kept. */
  lemma RewriteLintSpec(scripts: Json)
    requires scripts.Obj?
    ensures RewriteLint(scripts).Err? <==> "lint" in scripts.fields && LintThrows(scripts.fields["lint"])
    ensures RewriteLint(scripts).Ok? ==> RewriteLint(scripts).value.Obj?
    ensures RewriteLint(scripts).Ok? ==> RewriteLint(scripts).value.fields.Keys == scripts.fields.Keys
    ensures RewriteLint(scripts).Ok? && "lint" in scripts.fields ==>
      RewriteLint(scripts).value.fields["lint"] == StrictLint(scripts.fields["lint"])
    ensures RewriteLint(scripts).Ok? ==> forall k :: k in scripts.fields && k != "lint" ==>
      RewriteLint(scripts).value.fields[k] == scripts.fields[k]
  {
  }

  /** The lint script changes exactly when it is a string containing `"eslint "`. */
  lemma LintChangedIff(lint: Json)
    ensures StrictLint(lint) != lint <==> lint.Str? && Contains(lint.s, EslintPattern)
  {
    if lint.Str? && Contains(lint.s, EslintPattern) {
      var s := lint.s;
      IndexOfSpec(s, EslintPattern);
      var i := IndexOf(s, EslintPattern).value;
      PrefixOccurs(s, EslintPattern, 6, i);
      assert EslintPattern[..6] == "eslint";
      ContainsAt(s, "eslint", i);
      ReplaceFirstInserts(s, EslintPattern, EslintStrict);
    }
  }

  /** Where the lint script changes, only its first `"eslint "` becomes
      `"eslint --max-warnings=0 "`; the text around it is kept. */
  lemma LintRewritesFirstOccurrence(lint: Json)
    requires lint.Str? && Contains(lint.s, EslintPattern)
    ensures exists i: nat ::
      && OccursAt(lint.s, EslintPattern, i)
      && (forall j: nat :: j < i ==> !OccursAt(lint.s, EslintPattern, j))
      && StrictLint(lint) == Str(lint.s[..i] + EslintStrict + lint.s[i + |EslintPattern|..])
  {
    var s := lint.s;
    IndexOfSpec(s, EslintPattern);
    var i := IndexOf(s, EslintPattern).value;
    PrefixOccurs(s, EslintPattern, 6, i);
    assert EslintPattern[..6] == "eslint";
    ContainsAt(s, "eslint", i);
    assert StrictLint(lint) == Str(s[..i] + EslintStrict + s[i + |EslintPattern|..]);
  }

  /** A lint script of exactly `"eslint"` has no `"eslint "` and is left as it is. */
  lemma BareEslintKept()
    ensures StrictLint(Str("eslint")) == Str("eslint")
  {
    ReplaceFirstShort("eslint", EslintPattern, EslintStrict);
  }

  /** The rewrite is not idempotent: the strict text itself starts with `"eslint "`, so a
      second rewrite adds a second `--max-warnings=0`. */
  lemma StrictLintNotIdempotent(lint: Json)
    requires lint.Str? && Contains(lint.s, EslintPattern)
    ensures StrictLint(StrictLint(lint)) != StrictLint(lint)
  {
    var s := lint.s;
    IndexOfSpec(s, EslintPattern);
    var i := IndexOf(s, EslintPattern).value;
    PrefixOccurs(s, EslintPattern, 6, i);
    assert EslintPattern[..6] == "eslint";
    ContainsAt(s, "eslint", i);
    var r := s[..i] + EslintStrict + s[i + |EslintPattern|..];
    assert StrictLint(lint) == Str(r);
    assert r[i..i + |EslintPattern|] == EslintPattern;
    ContainsAt(r, EslintPattern, i);
    LintChangedIff(Str(r));
  }

  // ---------------------------------------------------------------------------
  // package.json

  /** `scripts` as the patch finds it once `??= {}` has run. */
  function ScriptsBefore(doc: map<string, Json>): Json
  {
    MemberOr(doc, "scripts", Obj(map[]))
  }

  /** `devDependencies` as the patch finds it once `??= {}` has run. */
  function DevDependenciesBefore(doc: map<string, Json>): Json
  {
    MemberOr(doc, "devDependencies", Obj(map[]))
  }

  /** The shapes of package.json on which the patch throws. */
  predicate PackageJsonPatchThrows(doc: map<string, Json>)
  {
    || IsPrimitive(ScriptsBefore(doc))
    || (ScriptsBefore(doc).Obj? && "lint" in ScriptsBefore(doc).fields && LintThrows(ScriptsBefore(doc).fields["lint"]))
    || IsPrimitive(DevDependenciesBefore(doc))
  }

  /** `after` is the scripts object `before` with `test` and `typecheck` set, `lint` made
      strict, and every other script kept. */
  predicate ScriptsPatched(before: map<string, Json>, after: Json)
  {
    && after.Obj?
    && after.fields.Keys == before.Keys + {"test", "typecheck"}
    && after.fields["test"] == Str(TestScript)
    && after.fields["typecheck"] == Str(TypecheckScript)
    && ("lint" in before ==> after.fields["lint"] == StrictLint(before["lint"]))
    && (forall k :: k in before && k != "test" && k != "typecheck" && k != "lint" ==> after.fields[k] == before[k])
  }

  /** `after` is the devDependencies object `before` with the test utilities linked, vitest
      pinned to the orchestrator's version, and every other dependency kept. */
  predicate DevDependenciesPatched(before: map<string, Json>, after: Json, vitestVersion: string)
  {
    && after.Obj?
    && after.fields.Keys == before.Keys + {TestsUtilsName, "vitest"}
    && after.fields[TestsUtilsName] == Str(TestsUtilsLink)
    && after.fields["vitest"] == Str(vitestVersion)
    && (forall k :: k in before && k != TestsUtilsName && k != "vitest" ==> after.fields[k] == before[k])
  }

  /** The scripts steps: set `test`, rewrite `lint`, set `typecheck`. */
  function PatchScripts(scripts: Json): Result<Json, PatchError>
  {
    var withTest :- SetProperty(scripts, "test", Str(TestScript), "scripts");
    var withLint :- RewriteLint(withTest);
    SetProperty(withLint, "typecheck", Str(TypecheckScript), "scripts")
  }

  /** The devDependencies steps: link the test utilities, pin vitest. */
  function PatchDevDependencies(deps: Json, vitestVersion: string): Result<Json, PatchError>
  {
    var withUtils :- SetProperty(deps, TestsUtilsName, Str(TestsUtilsLink), "devDependencies");
    SetProperty(withUtils, "vitest", Str(vitestVersion), "devDependencies")
  }

  /** The whole manifest patch of `updatePackageJson`: the document it writes, or the
      error it throws. `baseName` is the basename of the project directory. */
  function PatchedPackageJson(doc: map<string, Json>, baseName: string, vitestVersion: string)
    : Result<map<string, Json>, PatchError>
  {
    var named := doc["name" := Str(baseName)];
    var scripts :- PatchScripts(ScriptsBefore(named));
    var withScripts := named["scripts" := scripts];
    var deps :- PatchDevDependencies(DevDependenciesBefore(withScripts), vitestVersion);
    Ok(withScripts["devDependencies" := deps])
  }

  /** The scripts steps throw only on a primitive `scripts` or a throwing lint condition;
      otherwise an object gets `test`, `typecheck` and a strict `lint`, and an array is kept. */
  lemma PatchScriptsSpec(scripts: Json)
    ensures PatchScripts(scripts).Err? <==>
      || !(scripts.Obj? || scripts.Arr?)
      || (scripts.Obj? && "lint" in scripts.fields && LintThrows(scripts.fields["lint"]))
    ensures PatchScripts(scripts).Ok? && scripts.Obj? ==> ScriptsPatched(scripts.fields, PatchScripts(scripts).value)
    ensures PatchScripts(scripts).Ok? && scripts.Arr? ==> PatchScripts(scripts).value == scripts
  {
    if scripts.Obj? {
      var withTest := scripts.fields["test" := Str(TestScript)];
      assert "lint" in withTest <==> "lint" in scripts.fields;
      assert "lint" in withTest ==> withTest["lint"] == scripts.fields["lint"];
    }
  }

  /** The devDependencies steps throw only on a primitive; an object gets the two entries and
      keeps every other dependency, an array is kept. */
  lemma PatchDevDependenciesSpec(deps: Json, vitestVersion: string)
    ensures PatchDevDependencies(deps, vitestVersion).Err? <==> !(deps.Obj? || deps.Arr?)
    ensures PatchDevDependencies(deps, vitestVersion).Ok? && deps.Obj? ==>
      DevDependenciesPatched(deps.fields, PatchDevDependencies(deps, vitestVersion).value, vitestVersion)
    ensures PatchDevDependencies(deps, vitestVersion).Ok? && deps.Arr? ==> PatchDevDependencies(deps, vitestVersion).value == deps
  {
  }

  /** `updatePackageJson` throws exactly on the shapes `PackageJsonPatchThrows` names: a
      primitive `scripts` or `devDependencies`, or a lint script whose condition throws. */
  lemma PackageJsonPatchErrors(doc: map<string, Json>, baseName: string, vitestVersion: string)
    ensures PatchedPackageJson(doc, baseName, vitestVersion).Err? <==> PackageJsonPatchThrows(doc)
  {
    var named := doc["name" := Str(baseName)];
    assert ScriptsBefore(named) == ScriptsBefore(doc);
    PatchScriptsSpec(ScriptsBefore(named));
    if PatchScripts(ScriptsBefore(named)).Ok? {
      var withScripts := named["scripts" := PatchScripts(ScriptsBefore(named)).value];
      assert DevDependenciesBefore(withScripts) == DevDependenciesBefore(doc);
      PatchDevDependenciesSpec(DevDependenciesBefore(withScripts), vitestVersion);
    }
  }

  /** What `updatePackageJson` writes when it does not throw: the name set, `scripts.test`
      and `scripts.typecheck` set whether or not `scripts` existed, `lint` made strict, the
      two dev dependencies added, and every other key, script and dependency unchanged. */
  lemma PackageJsonPatchSpec(doc: map<string, Json>, baseName: string, vitestVersion: string)
    requires PatchedPackageJson(doc, baseName, vitestVersion).Ok?
    ensures var r := PatchedPackageJson(doc, baseName, vitestVersion).value;
      && r.Keys == doc.Keys + {"name", "scripts", "devDependencies"}
      && r["name"] == Str(baseName)
      && (forall k :: k in doc && k != "name" && k != "scripts" && k != "devDependencies" ==> r[k] == doc[k])
      && (ScriptsBefore(doc).Obj? ==> ScriptsPatched(ScriptsBefore(doc).fields, r["scripts"]))
      && (ScriptsBefore(doc).Arr? ==> r["scripts"] == ScriptsBefore(doc))
      && (DevDependenciesBefore(doc).Obj? ==>
            DevDependenciesPatched(DevDependenciesBefore(doc).fields, r["devDependencies"], vitestVersion))
      && (DevDependenciesBefore(doc).Arr? ==> r["devDependencies"] == DevDependenciesBefore(doc))
  {
    var named := doc["name" := Str(baseName)];
    assert ScriptsBefore(named) == ScriptsBefore(doc);
    PatchScriptsSpec(ScriptsBefore(named));
    var withScripts := named["scripts" := PatchScripts(ScriptsBefore(named)).value];
    assert DevDependenciesBefore(withScripts) == DevDependenciesBefore(doc);
    PatchDevDependenciesSpec(DevDependenciesBefore(withScripts), vitestVersion);
  }

  // ---------------------------------------------------------------------------
  // tsconfig.json

  /** The patch of `updateTsconfig`: `exclude ??= []`, then append the timestamp glob. */
  function PatchedTsconfig(doc: map<string, Json>): Result<map<string, Json>, PatchError>
  {
    match MemberOr(doc, "exclude", Arr([]))
    case Arr(items) => Ok(doc["exclude" := Arr(items + [Str(TimestampGlob)])])
    case _ => Err(NotAFunction("exclude.push"))
  }

  /** What `updateTsconfig` promises: it throws exactly when `exclude` is set to something
      other than an array; otherwise `exclude` holds its old entries followed by the timestamp
      glob (just the glob where it was missing or null), and every other key is unchanged. */
  lemma TsconfigPatchSpec(doc: map<string, Json>)
    ensures var r := PatchedTsconfig(doc);
      && (r.Ok? <==> IsNullish(doc, "exclude") || doc["exclude"].Arr?)
      && (r.Ok? ==> r.value.Keys == doc.Keys + {"exclude"})
      && (r.Ok? ==> forall k :: k in doc && k != "exclude" ==> r.value[k] == doc[k])
      && (r.Ok? && IsNullish(doc, "exclude") ==> r.value["exclude"] == Arr([Str(TimestampGlob)]))
      && (r.Ok? && !IsNullish(doc, "exclude") ==> r.value["exclude"] == Arr(doc["exclude"].items + [Str(TimestampGlob)]))
  {
    if IsNullish(doc, "exclude") {
      assert [] + [Str(TimestampGlob)] == [Str(TimestampGlob)];
    }
  }

  /** Applying the tsconfig patch twice appends the glob twice: it is not idempotent. */
  lemma TsconfigPatchNotIdempotent(doc: map<string, Json>)
    requires PatchedTsconfig(doc).Ok?
    ensures PatchedTsconfig(PatchedTsconfig(doc).value).Ok?
    ensures var once := PatchedTsconfig(doc).value["exclude"];
            var twice := PatchedTsconfig(PatchedTsconfig(doc).value).value["exclude"];
            twice == Arr(once.items + [Str(TimestampGlob)]) && |twice.items| == |once.items| + 1 && twice != once
  {
    TsconfigPatchSpec(doc);
    TsconfigPatchSpec(PatchedTsconfig(doc).value);
  }

  // ---------------------------------------------------------------------------
  // How a patch result reaches the file

  /** The file's contents after the patch: written on success, untouched on a throw. */
  function Written(r: Result<map<string, Json>, PatchError>, before: map<string, Json>): map<string, Json>
  {
    if r.Ok? then r.value else before
  }

  function OutcomeOf(r: Result<map<string, Json>, PatchError>): Outcome<PatchError>
  {
    if r.Ok? then Pass else Fail(r.error)
  }
}

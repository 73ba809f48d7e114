/**
 * The merge of two builds through the output directory and its backup.
 *
 * The file system is abstracted to two slots, the output directory
 * `.vercel` and the backup directory `.vercel.bak`; each is absent or holds
 * a tree mapping paths inside it to build artifacts. A move of a whole
 * directory, or of one bundle between the two trees, follows the behaviour
 * of the move helper of `fs-extra`: a missing source fails first, then,
 * without overwriting, an existing destination fails; removal without
 * `force` fails on a missing directory.
 */
module Orchestrator {
  import opened Wrappers
  import opened FunctionNames
  import opened RouteConfig

  const OutputDir: string := ".vercel"
  const BackupDir: string := ".vercel.bak"
  /** The manifest, relative to the output directory. */
  const ConfigPath: string := "output/config.json"

  /** An artifact of the build output: a function bundle (its content opaque) or the manifest. */
  datatype Node = Bundle(code: string) | Manifest(config: Config)

  /** A build output directory: each artifact under its path relative to the directory. */
  type Tree = map<string, Node>

  /**
   * The effect of the nested build subprocess: success writes a whole new
   * output tree; a non-zero exit leaves whatever it had written, if anything.
   */
  datatype BuildResult = Built(tree: Tree) | BuildFailed(status: int, leftover: Option<Tree>)

  datatype RunError =
    | NotFound(path: string)
    | AlreadyExists(path: string)
    | BuildError(status: int)
    | NotAManifest(path: string)
    | MissingDefaultRoute

  function Under(dir: string, path: string): string {
    dir + "/" + path
  }

  /** `readJsonConfig` on the manifest of an output directory. */
  function ReadManifest(out: Option<Tree>): (r: Result<Config, RunError>)
    ensures r.Success? <==> out.Some? && ConfigPath in out.value && out.value[ConfigPath].Manifest?
    ensures r.Success? ==> out.value[ConfigPath] == Manifest(r.value)
    ensures r.Failure? ==> r.error == NotFound(Under(OutputDir, ConfigPath)) || r.error == NotAManifest(Under(OutputDir, ConfigPath))
  {
    if out.None? || ConfigPath !in out.value then Failure(NotFound(Under(OutputDir, ConfigPath)))
    else if out.value[ConfigPath].Bundle? then Failure(NotAManifest(Under(OutputDir, ConfigPath)))
    else Success(out.value[ConfigPath].config)
  }

  /** Bundle paths never clash with the manifest's path. */
  lemma FunctionPathIsNotConfigPath(suffix: string)
    ensures FunctionPath(suffix) != ConfigPath
  {
    assert FunctionPath(suffix)[7] == 'f';
    assert ConfigPath[7] == 'c';
  }

  /**
   * The merged tree: the first build with the second build's default bundle
   * added under the runtime-qualified name.
   */
  function Merged(first: Tree, second: Tree, runtime: string): Tree
    requires FunctionPath("") in second
  {
    first[FunctionPath(runtime) := second[FunctionPath("")]]
  }

  /**
   * The merge adds exactly one bundle, under the runtime-qualified name, and
   * keeps every artifact of the first build.
   */
  lemma MergedAddsOneBundle(first: Tree, second: Tree, runtime: string)
    requires FunctionPath("") in second && FunctionPath(runtime) !in first
    ensures Merged(first, second, runtime).Keys == first.Keys + {FunctionPath(runtime)}
    ensures |Merged(first, second, runtime)| == |first| + 1
    ensures forall p :: p in first ==> Merged(first, second, runtime)[p] == first[p]
    ensures Merged(first, second, runtime)[FunctionPath(runtime)] == second[FunctionPath("")]
  {
  }

  /** The conditions under which every directory step of a run succeeds. */
  predicate CanMerge(first: Option<Tree>, build: BuildResult, runtime: string) {
    && first.Some?
    && build.Built?
    && FunctionPath("") in build.tree
    && FunctionPath(runtime) !in first.value
  }

  class OutputDirs {
    /** `.vercel`. */
    var primary: Option<Tree>
    /** `.vercel.bak`. */
    var backup: Option<Tree>

    constructor (primary: Option<Tree>, backup: Option<Tree>)
      ensures this.primary == primary && this.backup == backup
    {
      this.primary := primary;
      this.backup := backup;
    }

    /** `move(vercelPath, vercelBackupPath, { overwrite: true })`. */
    method BackupOutput() returns (res: Outcome<RunError>)
      modifies this
      ensures old(primary).None? ==> res == Fail(NotFound(OutputDir)) && unchanged(this)
      ensures old(primary).Some? ==> res == Pass && primary == None && backup == old(primary)
    {
      if primary.None? {
        return Fail(NotFound(OutputDir));
      }
      backup := primary;
      primary := None;
      res := Pass;
    }

    /** `execSync("... npm run build")`: the build writes the output directory. */
    method RunBuild(build: BuildResult) returns (res: Outcome<RunError>)
      modifies this
      ensures build.Built? ==> res == Pass && primary == Some(build.tree) && backup == old(backup)
      ensures build.BuildFailed? ==>
        res == Fail(BuildError(build.status)) && primary == build.leftover && backup == old(backup)
    {
      match build {
        case Built(tree) =>
          primary := Some(tree);
          res := Pass;
        case BuildFailed(status, leftover) =>
          primary := leftover;
          res := Fail(BuildError(status));
      }
    }

    /**
     * `move(vercelPath/getFunctionPath(), vercelBackupPath/getFunctionPath(runtime))`:
     * the new default bundle goes into the backup tree under the runtime's name.
     */
    method RelocateFunction(runtime: string) returns (res: Outcome<RunError>)
      modifies this
      ensures old(primary).None? || FunctionPath("") !in old(primary).value ==>
        res == Fail(NotFound(Under(OutputDir, FunctionPath("")))) && unchanged(this)
      ensures old(primary).Some? && FunctionPath("") in old(primary).value
              && old(backup).Some? && FunctionPath(runtime) in old(backup).value ==>
        res == Fail(AlreadyExists(Under(BackupDir, FunctionPath(runtime)))) && unchanged(this)
      ensures old(primary).Some? && FunctionPath("") in old(primary).value
              && !(old(backup).Some? && FunctionPath(runtime) in old(backup).value) ==>
        && res == Pass
        && primary == Some(old(primary).value - {FunctionPath("")})
        && backup == Some((if old(backup).Some? then old(backup).value else map[])
                            [FunctionPath(runtime) := old(primary).value[FunctionPath("")]])
    {
      var source, target := FunctionPath(""), FunctionPath(runtime);
      if primary.None? || source !in primary.value {
        return Fail(NotFound(Under(OutputDir, source)));
      }
      // the destination's parent is created when missing
      var dest := if backup.Some? then backup.value else map[];
      if target in dest {
        return Fail(AlreadyExists(Under(BackupDir, target)));
      }
      var bundle := primary.value[source];
      primary := Some(primary.value - {source});
      backup := Some(dest[target := bundle]);
      res := Pass;
    }

    /** `rm(vercelPath, { recursive: true })`. */
    method RemoveOutput() returns (res: Outcome<RunError>)
      modifies this
      ensures old(primary).None? ==> res == Fail(NotFound(OutputDir)) && unchanged(this)
      ensures old(primary).Some? ==> res == Pass && primary == None && backup == old(backup)
    {
      if primary.None? {
        return Fail(NotFound(OutputDir));
      }
      primary := None;
      res := Pass;
    }

    /** `move(vercelBackupPath, vercelPath)`, without overwriting. */
    method RestoreBackup() returns (res: Outcome<RunError>)
      modifies this
      ensures old(backup).None? ==> res == Fail(NotFound(BackupDir)) && unchanged(this)
      ensures old(backup).Some? && old(primary).Some? ==>
        res == Fail(AlreadyExists(OutputDir)) && unchanged(this)
      ensures old(backup).Some? && old(primary).None? ==>
        res == Pass && primary == old(backup) && backup == None
    {
      if backup.None? {
        return Fail(NotFound(BackupDir));
      }
      if primary.Some? {
        return Fail(AlreadyExists(OutputDir));
      }
      primary := backup;
      backup := None;
      res := Pass;
    }

    /**
     * Reads the manifest of the output directory, splices the new routes in
     * front of the first catch-all and saves the whole document; when there
     * is no catch-all nothing is saved.
     */
    method PatchManifest(patterns: seq<string>, runtime: string) returns (res: Outcome<RunError>)
      modifies this
      ensures ReadManifest(old(primary)).Failure? ==>
        res == Fail(ReadManifest(old(primary)).error) && unchanged(this)
      ensures ReadManifest(old(primary)).Success? ==>
        match PatchRoutes(ReadManifest(old(primary)).value, patterns, runtime)
        case Failure(_) => res == Fail(MissingDefaultRoute) && unchanged(this)
        case Success(patched) =>
          && res == Pass
          && primary == Some(old(primary).value[ConfigPath := Manifest(patched)])
          && backup == old(backup)
    {
      var read := ReadManifest(primary);
      if read.Failure? {
        return Fail(read.error);
      }
      var json := read.value;
      var routes := json.routes;
      var index := FindCatchAll(routes);
      if index == -1 {
        return Fail(MissingDefaultRoute);
      }
      routes := routes[..index] + NewRoutes(patterns, runtime) + routes[index..];
      json := json.(routes := routes);
      primary := Some(primary.value[ConfigPath := Manifest(json)]);
      res := Pass;
    }

    /**
     * `setVercelRuntime(patterns, runtime)`: back up the output, build
     * again, move the new default bundle into the backup under the
     * runtime's name, drop the second output, restore the backup and patch
     * its manifest. The first failing step ends the run; nothing is rolled
     * back.
     */
    method SetVercelRuntime(patterns: seq<string>, runtime: string, build: BuildResult)
      returns (res: Outcome<RunError>)
      modifies this
      ensures old(primary).None? ==> res == Fail(NotFound(OutputDir)) && unchanged(this)
      ensures old(primary).Some? && build.BuildFailed? ==>
        res == Fail(BuildError(build.status)) && primary == build.leftover && backup == old(primary)
      ensures old(primary).Some? && build.Built? && FunctionPath("") !in build.tree ==>
        && res == Fail(NotFound(Under(OutputDir, FunctionPath(""))))
        && primary == Some(build.tree) && backup == old(primary)
      ensures old(primary).Some? && build.Built? && FunctionPath("") in build.tree
              && FunctionPath(runtime) in old(primary).value ==>
        && res == Fail(AlreadyExists(Under(BackupDir, FunctionPath(runtime))))
        && primary == Some(build.tree) && backup == old(primary)
      ensures CanMerge(old(primary), build, runtime) ==>
        var merged := Merged(old(primary).value, build.tree, runtime);
        && backup == None
        && match ReadManifest(old(primary))
           case Failure(e) => res == Fail(e) && primary == Some(merged)
           case Success(cfg) =>
             match PatchRoutes(cfg, patterns, runtime)
             case Failure(_) => res == Fail(MissingDefaultRoute) && primary == Some(merged)
             case Success(patched) => res == Pass && primary == Some(merged[ConfigPath := Manifest(patched)])
    {
      res := BackupOutput();
      if res.Fail? {
        return;
      }
      res := RunBuild(build);
      if res.Fail? {
        return;
      }
      res := RelocateFunction(runtime);
      if res.Fail? {
        return;
      }
      res := RemoveOutput();
      if res.Fail? {
        return;
      }
      res := RestoreBackup();
      if res.Fail? {
        return;
      }
      FunctionPathIsNotConfigPath(runtime);
      assert ReadManifest(primary) == ReadManifest(old(primary));
      res := PatchManifest(patterns, runtime);
    }
  }
}

/**
 * The command's entry point: the re-entrance guard, the usage check and
 * the default runtime, in front of the merge.
 *
 * The nested build runs this same command again with `NVR_RUNNING=1`; the
 * guard makes that inner run do nothing, so only the outer run merges.
 */
module Entry {
  import opened Wrappers
  import FunctionNames
  import opened RouteConfig
  import opened Orchestrator

  /** The value of `NVR_RUNNING` that marks the nested invocation. */
  const RunningMarker: string := "1"
  /** The runtime tag used when `NVR_RUNTIME` is unset or empty. */
  const DefaultRuntime: string := "nodejs18.x"
  const UsageExitCode: int := 1

  datatype Decision =
    | Skip
    | Usage(exitCode: int)
    | Proceed(patterns: seq<string>, runtime: string)

  /** `process.argv.slice(2)`. */
  function Arguments(argv: seq<string>): (args: seq<string>)
    ensures args == [] <==> |argv| <= 2
    ensures |args| == if |argv| <= 2 then 0 else |argv| - 2
    ensures forall k :: 0 <= k < |args| ==> args[k] == argv[k + 2]
  {
    if |argv| <= 2 then [] else argv[2..]
  }

  /**
   * The decision of the top-level block, given `process.argv` and the
   * values of `NVR_RUNNING` and `NVR_RUNTIME` (None when unset).
   */
  function Decide(argv: seq<string>, running: Option<string>, runtimeVar: Option<string>): (d: Decision)
    ensures d.Skip? <==> running == Some(RunningMarker)
    ensures d.Usage? <==> running != Some(RunningMarker) && |argv| <= 2
    ensures d.Usage? ==> d.exitCode == UsageExitCode
    ensures d.Proceed? ==> d.patterns == argv[2..] && d.patterns != []
    ensures d.Proceed? && (runtimeVar.None? || runtimeVar == Some("")) ==> d.runtime == DefaultRuntime
    ensures d.Proceed? && runtimeVar.Some? && runtimeVar.value != "" ==> d.runtime == runtimeVar.value
  {
    if running == Some(RunningMarker) then Skip
    else
      var args := Arguments(argv);
      if args == [] then Usage(UsageExitCode)
      else Proceed(args, if runtimeVar.Some? && runtimeVar.value != "" then runtimeVar.value else DefaultRuntime)
  }

  /**
   * The default runtime's bundle is distinct from the default bundle, so
   * with an unset `NVR_RUNTIME` the relocation cannot collide with the
   * first build's default function.
   */
  lemma DefaultRuntimeBundleIsNew(runtime: string)
    requires runtime == DefaultRuntime
    ensures FunctionNames.FunctionPath(runtime) != FunctionNames.FunctionPath("")
    ensures FunctionNames.FuncName(runtime) == "__nitro-nodejs18x"
  {
    FunctionNames.NodeRuntimeName(runtime);
    FunctionNames.DefaultFunctionPath();
  }

  datatype RunOutcome =
    | Skipped
    | UsageError(exitCode: int)
    | Finished(outcome: Outcome<RunError>)

  /** The top-level block: guard, usage check, default runtime, then the merge. */
  method Run(dirs: OutputDirs, argv: seq<string>, running: Option<string>, runtimeVar: Option<string>,
             build: BuildResult)
    returns (r: RunOutcome)
    modifies dirs
    ensures running == Some(RunningMarker) ==> r == Skipped && unchanged(dirs)
    ensures running != Some(RunningMarker) && Arguments(argv) == [] ==>
      r == UsageError(UsageExitCode) && unchanged(dirs)
    ensures Decide(argv, running, runtimeVar).Proceed? ==>
      var d := Decide(argv, running, runtimeVar);
      && r.Finished?
      && (r.outcome.Pass? <==>
            && CanMerge(old(dirs.primary), build, d.runtime)
            && ReadManifest(old(dirs.primary)).Success?
            && PatchRoutes(ReadManifest(old(dirs.primary)).value, d.patterns, d.runtime).Success?)
      && (r.outcome.Pass? ==>
            var patched := PatchRoutes(ReadManifest(old(dirs.primary)).value, d.patterns, d.runtime).value;
            && dirs.backup == None
            && dirs.primary == Some(Merged(old(dirs.primary).value, build.tree, d.runtime)
                                      [ConfigPath := Manifest(patched)]))
  {
    var d := Decide(argv, running, runtimeVar);
    match d {
      case Skip =>
        r := Skipped;
      case Usage(code) =>
        r := UsageError(code);
      case Proceed(patterns, runtime) =>
        var res := dirs.SetVercelRuntime(patterns, runtime, build);
        r := Finished(res);
    }
  }
}

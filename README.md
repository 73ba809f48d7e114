# nvr: merging a second-runtime function into a Vercel build

`nvr` is a small command that runs after a Nitro build for Vercel. It moves the
build output `.vercel` aside to `.vercel.bak` and starts a second, nested build
with `NVR_RUNNING=1`. That nested run of the command does nothing. The second
build's default function bundle is then moved into the backup under a
runtime-qualified name. The second output is deleted and the backup is put
back as `.vercel`. Last, the manifest `output/config.json` gets one route per
path pattern given on the command line, each pointing at the new function. The
routes go just before the first catch-all route `"/(.*)"`.

This project models that program in Dafny and proves the properties below.

- `FunctionNames` (`function_names.dfy`) models the bundle names. The runtime
  tag loses only its first character outside `[A-Za-z0-9_-]`. It is joined to
  `__nitro` with `-`, and an empty part is dropped. The name is then placed at
  `output/functions/<name>.func`.
- `RouteConfig` (`route_config.dfy`) models the route table. It covers the
  `findIndex` of the catch-all and the `splice` of the new routes in front of
  it. It proves where everything ends up and that the rest of the manifest is
  kept.
- `Orchestrator` (`orchestrator.dfy`) has a class `OutputDirs`. Its two fields
  are the two directory slots, each absent or holding a tree from path to
  artifact. There is one method per file-system step, and `SetVercelRuntime`
  runs them in sequence. On success, `.vercel` holds the first build plus the
  new bundle, with the patched manifest, and `.vercel.bak` is gone. Each
  failure states which steps have already happened.
- `Entry` (`entry.dfy`) models the top-level block: the re-entrance guard, the
  usage error and the default runtime.

Behaviour of the code worth noting:

- The pattern `/[^\w-]/` has no global flag, so only the first character
  outside `[A-Za-z0-9_-]` is removed. The default tag `nodejs18.x` gives the
  function `__nitro-nodejs18x`, not `__nitro-nodejs18.x`. A tag with two or
  more such characters gives a name that still contains one
  (`SecondForeignSurvives`). So a bundle name is made only of word
  characters and hyphens exactly when the tag has at most one foreign
  character (`FuncNameCharsIff`).
- A tag that is empty after cleaning, such as `.`, names the default bundle
  itself. The relocation then fails because the destination exists
  (`LoneForeignIsDefault`, `FunctionPathIsDefaultIff`,
  `OutputDirs.SetVercelRuntime`).
- A failing build or an internal error is not turned into an exit status by
  the code. It rejects the top-level promise, and that rejection is never
  handled.

## Model

| member | source | states |
|---|---|---|
| FunctionNames.StripFirstForeign | src/index.ts:21 | `replace(/[^\w-]/, "")` shortens the tag by at most one character; what it removes is stated by `StripKeepsNameString`, `StripRemovesFirstForeign` and `StripCounts` |
| FunctionNames.ForeignCountZeroIff | src/index.ts:21 | a tag has no character outside `[A-Za-z0-9_-]` exactly when its count of such characters is 0 |
| FunctionNames.StripCounts | src/index.ts:21 | cleaning a tag removes one character if the tag has a foreign one and none otherwise; the foreign count of the result is one less, or stays 0 |
| FunctionNames.StripKeepsNameString | src/index.ts:21 | a tag made only of `[A-Za-z0-9_-]` is returned unchanged |
| FunctionNames.StripRemovesFirstForeign | src/index.ts:21 | for `u + [c] + v` where `u` is all name characters and `c` is not a name character, the result is `u + v`: only the first foreign character goes and everything after it stays |
| FunctionNames.StripCleanIff | src/index.ts:21 | the cleaned tag has only name characters exactly when the tag had at most one foreign character |
| FunctionNames.NonEmptyParts | src/index.ts:21 | `filter((s) => s)` keeps no empty string and never lengthens the list |
| FunctionNames.NonEmptyPartsAppend | src/index.ts:21 | filtering a concatenation filters each half and keeps their order |
| FunctionNames.NonEmptyPartsSingleton | src/index.ts:21 | a single part is kept exactly when it is not the empty string |
| FunctionNames.NonEmptyPartsKeepsAll | src/index.ts:21 | a list without empty parts is kept whole, in order |
| FunctionNames.Join | src/index.ts:21 | `join("-")` of one part is that part, and a joined list starts with its first part (`JoinPair`: two parts are joined with one separator between them) |
| FunctionNames.JoinPair | src/index.ts:21 | `[a, b].join(sep)` is `a + sep + b` |
| FunctionNames.FuncName | src/index.ts:20-21 | the filter and join give `"__nitro"` when the cleaned tag is empty, and `"__nitro-" + cleaned tag` otherwise |
| FunctionNames.FuncNameCharsIff | src/index.ts:20-21 | a function name consists only of word characters and hyphens exactly when the tag had at most one foreign character |
| FunctionNames.FunctionPath | src/index.ts:24-25 | the path starts with `output/functions/`, ends with `.func`, and the function name can be read back from between the two; `DefaultFunctionPath`, `FunctionPathIsDefaultIff` and `FunctionPathInjective` state the default argument and when two paths coincide |
| FunctionNames.DefaultFunctionPath | src/index.ts:24-25 | the default argument gives the name `__nitro` and the path `output/functions/__nitro.func` |
| FunctionNames.FunctionPathIsDefaultIff | src/index.ts:20-25 | a tag's bundle path equals the default bundle path exactly when the tag cleans to the empty string |
| FunctionNames.FunctionPathInjective | src/index.ts:24-25 | two tags give the same bundle path exactly when they give the same function name |
| FunctionNames.NodeRuntimeName | src/index.ts:20-25 | the tag `nodejs18.x` gives the name `__nitro-nodejs18x` and the path `output/functions/__nitro-nodejs18x.func` |
| FunctionNames.SecondForeignSurvives | src/index.ts:21 | the tag `a.b.c` gives `__nitro-ab.c`, a name that still holds a character outside `[A-Za-z0-9_-]` |
| FunctionNames.LoneForeignIsDefault | src/index.ts:20-25 | a tag that is one foreign character gives the name `__nitro` and the default bundle path |
| RouteConfig.FindCatchAll | src/index.ts:56-57 | the result is -1 exactly when no route has `src == "/(.*)"`; otherwise it is the index of the first such route |
| RouteConfig.RouteTo | src/index.ts:65 | a new route is a catch-all exactly when its pattern is `"/(.*)"`, and its destination always starts with `/__nitro`, the prefix of every function name |
| RouteConfig.NewRoutes | src/index.ts:65 | one route per pattern, in the given order: `{src: pattern, dest: "/" + getFuncName(runtime)}` |
| RouteConfig.PatchRoutes | src/index.ts:56-66 | fails exactly when there is no catch-all route; on success, with `i` the first catch-all index, the new table has `\|patterns\|` more entries, keeps `routes[..i]`, has the new routes in order at `i..i+\|patterns\|`, then `routes[i..]`, so the catch-all is at `i + \|patterns\|`; every other member of the manifest is unchanged |
| RouteConfig.CatchAllAfterInserted | src/index.ts:56-66 | after a patch, the first catch-all is the old one, shifted by `\|patterns\|`, exactly when no pattern is `"/(.*)"` |
| RouteConfig.PatchTwice | src/index.ts:56-66 | two patches for the same runtime, the first without a catch-all pattern, give the same result as one patch with both pattern lists concatenated |
| RouteConfig.LegacyApiExample | src/index.ts:56-66 | a manifest holding only the catch-all, patched with `/api/legacy/(.*)` for `nodejs18.x`, becomes the legacy route to `/__nitro-nodejs18x` followed by the catch-all, with the rest of the manifest unchanged |
| Orchestrator.ReadManifest | src/index.ts:11-17 | reading `output/config.json` from `.vercel` succeeds exactly when that entry exists and is a manifest, and then gives that manifest; otherwise it fails with a missing file or with not-a-manifest, naming the path |
| Orchestrator.FunctionPathIsNotConfigPath | src/index.ts:24-25 | no bundle path is the manifest path `output/config.json`, so relocating a bundle never replaces the manifest |
| Orchestrator.MergedAddsOneBundle | src/index.ts:42-44 | the merged tree is the first build plus exactly one entry, the second build's default bundle under the runtime-qualified path |
| Orchestrator.OutputDirs.BackupOutput | src/index.ts:34 | a missing `.vercel` fails and changes nothing; otherwise it becomes `.vercel.bak`, replacing any earlier backup, and `.vercel` is absent |
| Orchestrator.OutputDirs.RunBuild | src/index.ts:37-39 | a successful build writes its tree to `.vercel`; a failed one reports its status and leaves whatever it wrote |
| Orchestrator.OutputDirs.RelocateFunction | src/index.ts:42-44 | a missing source bundle fails, and so does an existing destination because the move does not overwrite; both leave the state unchanged; otherwise the bundle leaves `.vercel` and appears in `.vercel.bak` under the runtime's path |
| Orchestrator.OutputDirs.RemoveOutput | src/index.ts:45 | `.vercel` is removed; if it is missing, the step fails |
| Orchestrator.OutputDirs.RestoreBackup | src/index.ts:46 | `.vercel.bak` becomes `.vercel`; a missing backup or an existing `.vercel` fails and changes nothing |
| Orchestrator.OutputDirs.PatchManifest | src/index.ts:48-67 | an unreadable manifest, or one without a catch-all, fails with nothing saved; otherwise the manifest in `.vercel` is replaced by `PatchRoutes` of it and nothing else changes |
| Orchestrator.OutputDirs.SetVercelRuntime | src/index.ts:32-67 | the state after each possible failing step; on success `.vercel` is the first build plus the new bundle with its manifest patched, and `.vercel.bak` is absent; a build failure leaves the first build in the backup; a missing catch-all leaves the merged tree in place, unpatched |
| Entry.Arguments | src/index.ts:73 | `process.argv.slice(2)` drops exactly the first two entries and keeps the rest in order; it is empty exactly when there are at most two |
| Entry.Decide | src/index.ts:72-81 | skip exactly when `NVR_RUNNING` is `"1"`; otherwise a usage error with code 1 exactly when there are no arguments; otherwise proceed with the arguments and with `NVR_RUNTIME`, or `nodejs18.x` when it is unset or empty |
| Entry.DefaultRuntimeBundleIsNew | src/index.ts:81 | the default runtime's bundle path is not the default bundle path, so the relocation cannot collide with the first build's default function |
| Entry.Run | src/index.ts:70-84 | the marked nested run and the usage error change no directory; otherwise the run succeeds exactly when every step can, and then ends in the merged and patched output |

## Left out

- The build subprocess (`npm run build` with `NITRO_PRESET=vercel NVR_RUNNING=1`) is not run. Its effect is a parameter: a new output tree, or a failure status with whatever it left behind.
- Orchestrator.OutputDirs.RelocateFunction: bundle paths are compared as raw strings and are not normalised by `path.resolve`. A tag containing `/`, such as `./../__nitro` (cleaned to `/../__nitro`), gives a path that the real program resolves onto another bundle, such as the default one, or outside `.vercel.bak`. The model does not capture the collision or the escape this causes.
- Orchestrator.OutputDirs.SetVercelRuntime: for the same reason, with a tag containing `/`, its success condition `Orchestrator.CanMerge` may claim a merge that the real move refuses with "dest already exists", or that writes outside the backup directory.
- Entry.Run: inherits the same gap through `Orchestrator.CanMerge`: with a runtime tag containing `/`, its success condition may claim a merge that the real program refuses or performs outside the backup directory.
- Real file-system calls and working-directory paths are left out. Directories are two slots holding trees from relative path to artifact, and function bundles are opaque. Permission and disk errors, and moves across devices, are not modelled.
- JSON text is not modelled: reading, parsing and `JSON.stringify(json, null, 2)`. The manifest is a record of its `routes` plus its other top-level members, kept as JSON text. A manifest that does not parse, or that has no `routes` array, is not modelled. The only read failures are a missing file and a bundle where the manifest should be.
- `process.env`, `process.argv`, `console.error` and `process.exit` are inputs and outputs of `Entry.Run`. The usage message text is not modelled.
- The exit status of a failed run is not modelled. It comes from Node's handling of an unhandled promise rejection.
- Async scheduling, and interruption or a crash between steps, are not modelled.
- Strings are sequences of Unicode scalar values. JavaScript strings are UTF-16 code units. For a tag whose first foreign character lies outside the Basic Multilingual Plane, JavaScript removes only its high surrogate, and the model does not capture that.
- The in-place `splice` on the parsed array is modelled as reassigning a sequence. The array is reached only through the parsed object, and the model rebuilds that object with the new routes before saving it.

# A model of the py-vercel Python WSGI builder

The builder's `build` entry point (index.js:25-115) turns a Python WSGI
project into a Vercel Lambda. The stages run in a fixed order:

1. Read the build image's system release.
2. Validate the Python runtime: `config.runtime`, or `python3.9` by default.
3. Derive the WSGI application name from the entrypoint and `wsgiApplicationName`. This name is only logged.
4. Find the Python binary, make a writable user base and export it as `PYTHONUSERBASE`.
5. Install pip.
6. Make a source directory, download the project into it and export it as `srcDir`.
7. Install the builder's own `lambda` handler package.
8. Run, each only if its finder locates one, a setup script, a `requirements.txt` install and a post script.
9. Glob the work path into a bundle.
10. Create the Lambda with handler `lambda.vercel_handler`, the runtime as text and an empty environment.
11. Resolve to `{ output: lambda }`.

Any awaited call that throws rejects the whole build with its exception.

As written, `build` never gets that far. Its parameter list binds the
request's files as `originalFiles`, but index.js:30 reads `files`, which
nothing declares. Every call is therefore rejected with a ReferenceError
before the first stage (see "## Findings"). The stages above, and
`Pipeline.Expected` and `Builder.Build` below, describe `build` with the
request's files bound as `files`, as evidently intended.
`Pipeline.CorrectedBuildRunsPipeline` proves that this binding gives exactly
`Pipeline.Expected`. `Pipeline.AsWrittenBuildAlwaysRejects` proves that the
code as written rejects every request.

The project has four modules:

- `Js` models the bits of JavaScript the builder depends on:
  - truthiness and `||`;
  - `typeof === 'string'`;
  - template-literal text;
  - the outcome of an awaited call.
- `BuildConfig` holds the pure derivations:
  - the runtime;
  - the WSGI module and application;
  - the glob ignore pattern and options;
  - the Lambda descriptor.
- `Pipeline` is the specification of `build`.
  - The collaborators are the uninterpreted fields of a `Host`.
  - `Plan` lists every step the build takes when nothing throws. A step is a collaborator call with its arguments, or a write to `process.env`.
  - `Executed` cuts the plan after the first step that throws.
  - `Expected` gives the steps taken and what the promise resolves to.
  - The lemmas state the build's properties on top of that.
- `Builder` is the corrected `build`, with the request's files bound as `files`, written as imperative code.
  - A `Process` class holds the mutable `process.env`.
  - The method `Build` makes the calls one after another and returns early when a call throws.
  - `Build` is proved to take exactly the steps, and return exactly the result, that `Pipeline.Expected` specifies.
  - It is also proved to leave the environment as those steps write it.

## Model

| member | source | states |
|---|---|---|
| BuildConfig.Runtime | index.js:38 | the runtime is always truthy; it is `config.runtime` whenever that is truthy, otherwise `python3.9` |
| BuildConfig.BeforeFirstDot | index.js:42 | `split('.').shift()` returns a prefix of the entrypoint that contains no '.' and stops either at the first '.' or at the end |
| BuildConfig.BeforeFirstDotIsUnique | index.js:42 | those three properties fix the result uniquely |
| BuildConfig.SlashesToDots | index.js:42 | the global replace turns each '/' into '.' and keeps every other character where it was |
| BuildConfig.WsgiModule | index.js:42 | the WSGI module contains no '/'; it has a dot exactly where the entrypoint has a slash, and any other character copies the entrypoint's |
| BuildConfig.WsgiModuleOfPath | index.js:42 | for `stem.ext`, or a bare `stem` with no '.', the module is the stem with its slashes turned into dots |
| BuildConfig.WsgiModuleOfApiApp | index.js:42 | the entrypoint `api/app.py` gives the module `api.app` |
| BuildConfig.ApplicationName | index.js:43-44 | a falsy `wsgiApplicationName` yields `application`; a non-empty string is used as it is |
| BuildConfig.SplitAtLastDot | index.js:44 | splitting at the last '.' returns parts that join back into the input, with no '.' in the final part; the result is None only when there is no '.' |
| BuildConfig.SplitAtLastDotJoin | index.js:44 | splitting `m.n` gives back `(m, n)` whenever `n` contains no '.' |
| BuildConfig.WsgiApplication | index.js:44 | the result is the derived module, a dot, then the callable's name, for every name including dotted ones; when the name has no dot, splitting at the last dot gives back the module and the callable |
| BuildConfig.Ignore | index.js:100-103 | the ignore pattern is `excludeFiles` exactly when it is a string, including the empty string; in every other case it is `node_modules/**` |
| BuildConfig.IgnoreTestsTypeNotTruthiness | index.js:100-103 | an empty `excludeFiles` ignores nothing, while an empty `runtime` falls back to the default; a truthy non-string `excludeFiles` is not used |
| BuildConfig.BundleGlobOptions | index.js:98-104 | the glob runs with `cwd` set to the work path and with the ignore pattern above |
| BuildConfig.Descriptor | index.js:106-111 | the descriptor carries the globbed files, handler `lambda.vercel_handler`, an empty environment, and the runtime as template text |
| BuildConfig.DescriptorRuntime | index.js:109 | the descriptor's runtime is the configured one when that is a non-empty string, and `python3.9` when it is falsy |
| BuildConfig.DescriptorIgnoresWsgiApplication | index.js:106-111 | `wsgiApplicationName` has no effect on the descriptor, and the descriptor's environment is empty |
| Js.Truthy | index.js:38 | JavaScript truthiness: `undefined` and the empty string are falsy, a non-empty string is truthy; any other configuration value is truthy exactly when its recorded truthiness says so |
| Js.IsString | index.js:101 | `typeof v === 'string'`: `undefined` is not a string, and a string is truthy iff it is non-empty |
| Js.Template | index.js:109 | a template literal keeps a string as it is and prints `undefined` as the text `undefined` |
| Js.Or | index.js:38 | JavaScript's `or` returns its left operand when that is truthy and its right operand otherwise; the result is truthy iff either operand is |
| Js.Outcome.Error | index.js:32-111 | an awaited call carries an exception exactly when it threw |
| Pipeline.Bind | index.js:38-76 | defined as the value each `const` of `build` holds once its call has returned: the runtime of `config`, the paths returned by the host's calls, what each finder returns for the entrypoint and the downloaded files, and the descriptor over the globbed files (the facts are proved in EarlyCallsReturned and CallsSeeEarlierResults) |
| Pipeline.Optional | index.js:65-78 | defined as the one-step attempt of the call when the finder's value is truthy, and no step otherwise (proved in OptionalSegment and HooksRunIffFound) |
| Pipeline.Installs | index.js:32-61 | defined as the ten fixed steps in source order, from reading the system release to the handler install, each with the arguments `build` passes and the outcome the host gives (proved in InstallsOfPlan and InstallsSegment) |
| Pipeline.Hooks | index.js:63-79 | defined as the setup script, the requirements install and the post script, each an Optional step on its finder's path (proved in HooksRunIffFound) |
| Pipeline.Packaging | index.js:98-111 | defined as the `**` glob with the bundle options, then `createLambda` with the descriptor (proved in PackagingOfPlan) |
| Pipeline.Rank | index.js:32-111 | defined as each kind of call's position in the source's fixed stage order, from the system-release read (0) to `createLambda` (14); PlanInStageOrder, TraceInStageOrder and StopsAtFailedStage are stated in terms of it |
| Pipeline.Raised | index.js:32-111 | defined as the exception the awaited collaborator throws for a call on this host, and none for the two `process.env` writes at index.js:50 and 59, which cannot throw (used by PlanRecordsHost and ScriptRunsAreIndependent) |
| Pipeline.Plan | index.js:32-111 | the plan holds 12 to 15 steps: 12 fixed ones plus up to three optional ones |
| Pipeline.Executed | index.js:32-111 | the steps taken form a prefix of the plan; no step before the last one threw; either the whole plan is taken or the last step taken threw |
| Pipeline.Resolve | index.js:32-114 | defined as the executed prefix of the plan, and then the exception of its last step if that step threw, or `{ output: lambda }` otherwise (proved in ResolveFacts) |
| Pipeline.Expected | index.js:25-115 | defined as the resolution of this host's plan with the Lambda it creates, for `build` with the request's files bound as `files` (CorrectedBuildRunsPipeline equates that binding with it); `Builder.Build` is proved equal to it, and FailureStopsTheBuild and SuccessfulBuild state its properties |
| Pipeline.ResolveFacts | index.js:32-114 | a build is rejected iff a step it took threw; that step is the last one taken and supplies the exception; a build that succeeds took the whole plan and resolves to `{ output: lambda }` |
| Pipeline.TakenStepsReturned | index.js:32-111 | when more than `n` steps were taken, each of the first `n` was taken and returned |
| Pipeline.ExecutedAfter | index.js:32-111 | steps that returned are taken, and after them comes whatever the rest of the plan executes |
| Pipeline.Advance | index.js:32-111 | a step that returns joins the trace, and the build carries on with the steps after it |
| Pipeline.Throw | index.js:32-111 | a step that throws ends the build with its exception, and no later step is taken |
| Pipeline.AdvanceAt | index.js:32-111 | the same as Advance, with the position in the plan counted by steps |
| Pipeline.ThrowAt | index.js:32-111 | the same as Throw, with the position in the plan counted by steps |
| Pipeline.DoneIsPending | index.js:32-111 | the steps taken so far together with the rest of the plan make up the whole plan |
| Pipeline.Finish | index.js:112-114 | once every step has been taken, the build resolves to `{ output: lambda }` |
| Pipeline.ScriptRunsAreIndependent | index.js:64-79 | the two runs of `linux.install` are separate outcomes: on some host the same script returns as the setup script and throws as the post script |
| Pipeline.PlanInStageOrder | index.js:32-111 | the plan follows the source's stage order and no stage appears twice |
| Pipeline.TraceInStageOrder | index.js:32-111 | the steps taken also follow that order; in particular the setup script runs before the post script |
| Pipeline.HooksRunIffFound | index.js:63-79 | the setup script, the requirements install and the post script are each planned iff their finder returns a truthy path for the entrypoint and the downloaded files; the path installed is that one |
| Pipeline.HookStages | index.js:63-79 | the three optional calls occupy stages 10, 11 and 12 |
| Pipeline.PlanRecordsHost | index.js:32-111 | every planned step records the outcome of its call on the host |
| Pipeline.PrefixRecordsHost | index.js:32-111 | every step that is taken does as well |
| Pipeline.InstallsOfPlan | index.js:39-61 | all ten fixed steps, from the system-release read through the two `process.env` writes to the handler install, have the arguments the source passes and the outcomes the host gives |
| Pipeline.PackagingOfPlan | index.js:98-111 | the last two steps are the `**` glob with the bundle options, then `createLambda` with the descriptor |
| Pipeline.FailureStopsTheBuild | index.js:32-114 | the steps taken form a prefix of the plan, each recording the host's outcome; a build is rejected iff one of them threw, and then that step is last and supplies the exception; a build that succeeds took the whole plan |
| Pipeline.FailedRequirementsInstallAborts | index.js:70-111 | if a requirements file is found and `pip install -r` on it throws, the build is rejected; it is rejected with pip's exception once the build reaches that install, and it never reaches the post script, the glob or `createLambda` |
| Pipeline.RequirementsStepOfPlan | index.js:70-73 | when a requirements file is found, the plan holds the `pip install -r` step for it, run with the pip path and source directory the build obtained |
| Pipeline.RequirementsFailureEnds | index.js:72-111 | a requirements install that throws ends the build: the build is rejected, with pip's exception if that step is reached, and the post script, the glob and `createLambda` are never reached |
| Pipeline.StopsAtFailedStage | index.js:32-111 | a build whose plan holds a step that throws is rejected and takes no step of a later stage; once it reaches that step's stage, that step's exception is the one the build is rejected with |
| Pipeline.CallsSeeEarlierResults | index.js:32-76 | once the build gets past the handler install, every earlier call has returned, from the system-release read to the handler install; pip was installed with the binary found for the validated runtime; the download went into the source directory that was created; all three finders see the downloaded files |
| Pipeline.EarlyCallsReturned | index.js:39-58 | when none of the early calls threw, each bound value is the value its call returned |
| Pipeline.SuccessfulBuild | index.js:98-114 | a successful build validated the runtime, installed the handler from the builder's own directory, and globbed the work path with the ignore pattern; the Lambda it returns was created from a descriptor carrying the globbed files, the fixed handler, an empty environment and the validated runtime as text; its only key is `output`, never the entrypoint |
| Pipeline.WsgiApplicationNameHasNoEffect | index.js:42-45 | changing `wsgiApplicationName` changes nothing that the build does or returns |
| Pipeline.EnvironmentAfterSuccess | index.js:50-59 | after a successful build, `PYTHONUSERBASE` and `srcDir` in the process environment point at this build's directories, and every other variable is unchanged |
| Pipeline.Effect | index.js:50-59 | defined as the update of `PYTHONUSERBASE` or `srcDir` by the two `process.env` writes, with every other call leaving the environment as it is |
| Pipeline.ApplyEnv | index.js:50-59 | defined as the environment after the steps' effects are applied in order (proved in ApplyEnvSnoc and EnvironmentAfterSuccess) |
| Pipeline.EnvAfterSteps | index.js:50-59 | after at most four steps nothing is written; after more than four, `PYTHONUSERBASE` holds the user base; after more than eight, `srcDir` holds the source directory |
| Pipeline.EnvironmentOfPrefix | index.js:50-59 | wherever the build stops, the environment is the one the steps taken so far have written |
| Pipeline.PlanWrites | index.js:50-59 | step 4 writes `PYTHONUSERBASE`, step 8 writes `srcDir`, and no other step writes the environment |
| Pipeline.ApplyEnvAlong | index.js:50-59 | a plan whose only writes sit at those two positions leaves the environment in the same closed form |
| Pipeline.LaterStepsWriteNothing | index.js:63-111 | none of the steps after the handler install writes the environment |
| Pipeline.ApplyEnvSnoc | index.js:50-59 | the environment is updated one step at a time, in order |
| Pipeline.ParameterScope | index.js:25-29 | the parameter list binds the request's files under exactly one name, the name it destructures them to |
| Pipeline.ReadFiles | index.js:30 | reading `files` succeeds iff something binds that name, and it then yields the bound value; otherwise it throws |
| Pipeline.BoundBuild | index.js:25-58 | when nothing binds `files`, the build is rejected with a ReferenceError before taking any step; when something does, the build takes a non-empty prefix of the plan |
| Pipeline.AsWrittenBuildAlwaysRejects | index.js:25-30 | as written, every build is rejected with a ReferenceError before it takes any step |
| Pipeline.CorrectedBuildRunsPipeline | index.js:25-58 | once the parameter is bound as `files`, the build runs the pipeline on the request's files |
| Builder.Process.constructor | index.js:50-59 | the process starts out with the environment it is given |
| Builder.Build | index.js:25-115 | `build` with the request's files bound as `files`: the steps taken and the result are exactly those of `Pipeline.Expected`, and the process environment ends up as those steps write it |
| Builder.StartBuild | index.js:32-44 | reads the system release, validates the runtime and derives the WSGI application; the rest of the run is as the plan specifies, and the environment is the closed form for the steps taken |
| Builder.SelectPythonVersion | index.js:47-50 | finds the Python binary, creates the user base and exports `PYTHONUSERBASE`; same contract as StartBuild |
| Builder.BootstrapPip | index.js:52-53 | installs pip with the Python binary that was found; same contract as StartBuild |
| Builder.DownloadProject | index.js:55-59 | creates the source directory, downloads the project into it and exports `srcDir`; same contract as StartBuild |
| Builder.InstallHandlerPackage | index.js:60-61 | installs the builder's handler package into the source directory; the run continues as the plan specifies |
| Builder.InstallScripts | index.js:63-79 | runs each of the three optional steps only when its finder returns a truthy path, and stops at the first that throws |
| Builder.PrepareLambdaBundle | index.js:98-114 | globs the bundle, creates the Lambda and resolves to `{ output: lambda }`, unless one of those calls throws |

## Left out

- Logging is not modelled. This covers `log.info`, `log.title`, `log.heading`, `JSON.stringify(files)` and the content of the system release, which is read but only logged. The read itself is a step, because a failure in it rejects the build.
- `meta` is not modelled, because `build` never reads it.
- `exports.config` (`maxLambdaSize`, index.js:20-22) is not modelled, because `build` never uses it.
- The commented-out packaging path at index.js:82-97 is not modelled. It is dead code, including the entrypoint-keyed result and the `WSGI_APPLICATION` environment.
- `export type GlobOptions` (index.js:8) and the `: GlobOptions` annotation at index.js:98 are TypeScript syntax. The model takes the file to be compiled with its types erased, so neither has any effect. The `require('glob')` at index.js:7 does run, but its module is used only in that type, so the model leaves it out.
- The bodies of the collaborators are not part of this model. This covers `./build-utils` (`python`, `pip`, `linux`, `log`), `@vercel/build-utils` (`getWritableDirectory`, `download`, `glob`, `createLambda`) and `readFile`. Each is an uninterpreted function of its arguments, so the model makes no claim about what they do to the file system.
- Concurrency is not modelled: the build is treated as a single sequential run.
- `python.validateRuntime` is called without `await`. The model treats it as synchronous: it either returns or throws. A rejected promise that nobody awaits would not reject the build; that case is not modelled.
- The three finders (`linux.findRequirements`, `pip.findRequirements`, `linux.findPostRequirements`) are assumed to return a value and never throw.
- The two calls to `getWritableDirectory()` are modelled as two separate host outcomes, `userBaseDir` and `srcDir`. The same holds for the two calls to `linux.install`: `runSetupScript` and `runPostScript`.
- Pipeline.EnvironmentAfterSuccess: the collaborators are taken not to write `process.env`, because a host's calls are pure functions. The claim that every other variable is unchanged covers only `build`'s own two assignments at index.js:50 and index.js:59, not whatever pip, `linux.install` or `download` might do.
- `config` is modelled as an object with its three entries. An `undefined` or `null` `config` throws a TypeError at index.js:38, and that case is not modelled. A falsy primitive `config` (`false`, `0`, `''`) does not throw there and makes `config &&` at index.js:101 false. The model still gives the same result in that case: every entry then reads as `undefined`, and `node_modules/**` is chosen either way.
- A configuration value that is neither `undefined` nor a string is reduced to its truthiness and its template text. Nothing ties these two together.
- `setup.py`, the example Django application and the Python handler package are not modelled.
- Builder.Build: the read of the undeclared `files` at index.js:30 is replaced by the corrected binding, so `Build` runs the pipeline on the request's files. Where the code as written rejects every request with a ReferenceError, which `Pipeline.AsWrittenBuildAlwaysRejects` states, `Build` can succeed.
- Builder.StartBuild: splitting `build` into StartBuild, SelectPythonVersion, BootstrapPip, DownloadProject, InstallHandlerPackage, InstallScripts and PrepareLambdaBundle is only a proof device. Each method's contract is stated relative to the plan rather than as a separate promise from the source.

## Findings

| source | as written | input that shows it | evidently intended | confidence | as-written member | corrected member |
|---|---|---|---|---|---|---|
| index.js:25-58 | the parameter is destructured as `files: originalFiles`, yet the body reads `files`, which is never declared, at line 30 and line 58 | any request, e.g. entrypoint `api/app.py` with any file set: the first read of `files` raises a ReferenceError, so every build is rejected before it reaches `readFile` | the body should read the request's files, either by destructuring them as `files` or by reading `originalFiles` | not executed | Pipeline.AsWrittenBuildAlwaysRejects | Pipeline.CorrectedBuildRunsPipeline |

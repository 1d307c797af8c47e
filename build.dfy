/** `build` itself (index.js:25-115), as the sequence of awaited calls it
    makes: each call's outcome is taken from the host, a call that throws
    ends the build with its exception, and the two writes to `process.env`
    change the environment of the process the builder runs in. The method is
    proved to take exactly the steps, and return exactly the result, that
    `Pipeline.Expected` specifies. */
module Builder {
  import opened Js
  import opened BuildConfig
  import opened Pipeline

  /** The Node.js process the builder runs in: `build` writes two variables
      of its environment and never restores them. */
  class Process {
    var env: map<string, string>

    constructor(env: map<string, string>)
      ensures this.env == env
    {
      this.env := env;
    }
  }

  /** Runs the build of `req` on host `h` inside `process`. Returns what the
      promise resolves to (or is rejected with) and the steps taken. The
      environment of `process` ends up as those steps leave it. */
  method Build(req: Request, h: Host, process: Process) returns (result: BuildResult, trace: seq<Step>)
    modifies process
    ensures Run(trace, result) == Expected(req, h)
    ensures process.env == ApplyEnv(old(process.env), trace)
  {
    ghost var b := Bind(req, h);
    ghost var plan := Plan(req, h);
    ghost var env0 := process.env;
    result, trace := StartBuild(req, h, process, b, plan, env0);
    ResolveFacts(plan, b.lambda);
    assert trace == plan[..|trace|];
    EnvironmentOfPrefix(req, h, env0, |trace|);
  }

  /** index.js:32-44: read the system release, validate the runtime and
      derive the WSGI application, which is only logged; then the rest. */
  method StartBuild(req: Request, h: Host, process: Process,
                    ghost b: Bindings, ghost plan: seq<Step>, ghost env0: map<string, string>)
      returns (result: BuildResult, trace: seq<Step>)
    modifies process
    requires b == Bind(req, h) && plan == Installs(req, h, b) + Hooks(h, b) + Packaging(req, h, b)
    requires process.env == env0
    ensures Run(trace, result) == Resolve(plan, b.lambda)
    ensures process.env == EnvAfterSteps(env0, b, |trace|)
  {
    trace := [];

    // index.js:32-35
    var release := h.systemRelease;
    var s := Step(ReadSystemRelease, release.Error());
    assert plan[0] == s;
    if release.Threw? {
      ThrowAt(plan, b.lambda, trace);
      return Rejected(release.exception), trace + [s];
    }
    AdvanceAt(plan, trace);
    trace := trace + [s];

    // index.js:38-39
    var runtime := Runtime(req.config);
    var validated := h.validateRuntime(runtime);
    s := Step(ValidateRuntime(runtime), validated.Error());
    assert plan[1] == s;
    if validated.Threw? {
      ThrowAt(plan, b.lambda, trace);
      return Rejected(validated.exception), trace + [s];
    }
    AdvanceAt(plan, trace);
    trace := trace + [s];

    // index.js:42-44
    var wsgiApplication := WsgiApplication(req.entrypoint, req.config);

    result, trace := SelectPythonVersion(req, h, process, runtime, b, plan, env0, trace);
  }

  /** index.js:47-50: find the Python binary for the runtime and point
      `PYTHONUSERBASE` at a fresh writable directory; then the rest. */
  method SelectPythonVersion(req: Request, h: Host, process: Process, runtime: Value,
                             ghost b: Bindings, ghost plan: seq<Step>, ghost env0: map<string, string>,
                             done: seq<Step>)
      returns (result: BuildResult, trace: seq<Step>)
    modifies process
    requires b == Bind(req, h) && plan == Installs(req, h, b) + Hooks(h, b) + Packaging(req, h, b)
    requires runtime == b.runtime && Done(plan, done) && |done| == 2
    requires process.env == env0
    ensures Run(trace, result) == Resolve(plan, b.lambda)
    ensures process.env == EnvAfterSteps(env0, b, |trace|)
  {
    trace := done;

    // index.js:48
    var pythonBin := h.findPythonBinary(runtime);
    var s := Step(FindPythonBinary(runtime), pythonBin.Error());
    assert plan[2] == s;
    if pythonBin.Threw? {
      ThrowAt(plan, b.lambda, trace);
      return Rejected(pythonBin.exception), trace + [s];
    }
    AdvanceAt(plan, trace);
    trace := trace + [s];

    // index.js:49-50
    var pyUserBase := h.userBaseDir;
    s := Step(MakeUserBase, pyUserBase.Error());
    assert plan[3] == s;
    if pyUserBase.Threw? {
      ThrowAt(plan, b.lambda, trace);
      return Rejected(pyUserBase.exception), trace + [s];
    }
    AdvanceAt(plan, trace);
    trace := trace + [s];
    process.env := process.env[UserBaseVariable := pyUserBase.value];
    s := Step(SetUserBase(pyUserBase.value), None);
    assert plan[4] == s;
    AdvanceAt(plan, trace);
    trace := trace + [s];

    result, trace := BootstrapPip(req, h, process, pythonBin.value, b, plan, env0, trace);
  }

  /** index.js:52-53: install pip with that binary; then the rest. */
  method BootstrapPip(req: Request, h: Host, process: Process, pythonBin: Path,
                      ghost b: Bindings, ghost plan: seq<Step>, ghost env0: map<string, string>,
                      done: seq<Step>)
      returns (result: BuildResult, trace: seq<Step>)
    modifies process
    requires b == Bind(req, h) && plan == Installs(req, h, b) + Hooks(h, b) + Packaging(req, h, b)
    requires pythonBin == b.pythonBin && Done(plan, done) && |done| == 5
    requires process.env == env0[UserBaseVariable := b.userBase]
    ensures Run(trace, result) == Resolve(plan, b.lambda)
    ensures process.env == EnvAfterSteps(env0, b, |trace|)
  {
    trace := done;

    // index.js:53
    var pipPath := h.downloadAndInstallPip(pythonBin);
    var s := Step(InstallPip(pythonBin), pipPath.Error());
    assert plan[5] == s;
    if pipPath.Threw? {
      ThrowAt(plan, b.lambda, trace);
      return Rejected(pipPath.exception), trace + [s];
    }
    AdvanceAt(plan, trace);
    trace := trace + [s];

    result, trace := DownloadProject(req, h, process, pipPath.value, b, plan, env0, trace);
  }

  /** index.js:55-59: download the project into a fresh writable directory
      and point `srcDir` at it; then the rest. */
  method DownloadProject(req: Request, h: Host, process: Process, pipPath: Path,
                         ghost b: Bindings, ghost plan: seq<Step>, ghost env0: map<string, string>,
                         done: seq<Step>)
      returns (result: BuildResult, trace: seq<Step>)
    modifies process
    requires b == Bind(req, h) && plan == Installs(req, h, b) + Hooks(h, b) + Packaging(req, h, b)
    requires pipPath == b.pipPath && Done(plan, done) && |done| == 6
    requires process.env == env0[UserBaseVariable := b.userBase]
    ensures Run(trace, result) == Resolve(plan, b.lambda)
    ensures process.env == EnvAfterSteps(env0, b, |trace|)
  {
    trace := done;

    // index.js:56
    var srcDir := h.srcDir;
    var s := Step(MakeSrcDir, srcDir.Error());
    assert plan[6] == s;
    if srcDir.Threw? {
      ThrowAt(plan, b.lambda, trace);
      return Rejected(srcDir.exception), trace + [s];
    }
    AdvanceAt(plan, trace);
    trace := trace + [s];

    // index.js:58-59
    var files := h.download(req.files, srcDir.value);
    s := Step(Download(req.files, srcDir.value), files.Error());
    assert plan[7] == s;
    if files.Threw? {
      ThrowAt(plan, b.lambda, trace);
      return Rejected(files.exception), trace + [s];
    }
    AdvanceAt(plan, trace);
    trace := trace + [s];
    process.env := process.env[SrcDirVariable := srcDir.value];
    s := Step(SetSrcDir(srcDir.value), None);
    assert plan[8] == s;
    AdvanceAt(plan, trace);
    trace := trace + [s];

    result, trace := InstallHandlerPackage(req, h, pipPath, srcDir.value, files.value, b, plan, trace);
  }

  /** index.js:60-61: install the handler package from the builder's own
      directory into the source directory; then the rest. */
  method InstallHandlerPackage(req: Request, h: Host, pipPath: Path, srcDir: Path, files: Files,
                               ghost b: Bindings, ghost plan: seq<Step>, done: seq<Step>)
      returns (result: BuildResult, trace: seq<Step>)
    requires b == Bind(req, h) && plan == Installs(req, h, b) + Hooks(h, b) + Packaging(req, h, b)
    requires pipPath == b.pipPath && srcDir == b.srcDir && files == b.files
    requires Done(plan, done) && |done| == 9
    ensures Run(trace, result) == Resolve(plan, b.lambda)
    ensures |trace| > |done|
  {
    trace := done;

    // index.js:61
    var handler := h.pipInstall(pipPath, srcDir, [Str(h.builderDir)]);
    var s := Step(InstallHandler(pipPath, srcDir, h.builderDir), handler.Error());
    assert plan[9] == s;
    if handler.Threw? {
      ThrowAt(plan, b.lambda, trace);
      return Rejected(handler.exception), trace + [s];
    }
    AdvanceAt(plan, trace);
    trace := trace + [s];

    DoneIsPending(plan, trace);
    assert plan[10..] == Hooks(h, b) + Packaging(req, h, b);
    result, trace := InstallScripts(req, h, pipPath, srcDir, files, b, plan, trace);
  }

  /** index.js:63-79: the setup script, the requirements and the post
      script, each run only when its finder gives a truthy path; then the
      rest. */
  method InstallScripts(req: Request, h: Host, pipPath: Path, srcDir: Path, files: Files,
                        ghost b: Bindings, ghost plan: seq<Step>, done: seq<Step>)
      returns (result: BuildResult, trace: seq<Step>)
    requires b == Bind(req, h) && pipPath == b.pipPath && srcDir == b.srcDir && files == b.files
    requires Pending(plan, done, Hooks(h, b) + Packaging(req, h, b))
    ensures Run(trace, result) == Resolve(plan, b.lambda)
    ensures |trace| > |done|
  {
    ghost var requirements := Optional(b.requirementsPath, InstallRequirements(pipPath, srcDir, b.requirementsPath), h);
    ghost var post := Optional(b.postPath, RunPostScript(b.postPath), h);
    ghost var pack := Packaging(req, h, b);
    ghost var rest := Hooks(h, b) + pack;
    trace := done;

    // index.js:64-67
    var setupPath := h.findSetupScript(req.entrypoint, files);
    if Truthy(setupPath) {
      var installed := h.runSetupScript(setupPath);
      var s := Step(RunSetupScript(setupPath), installed.Error());
      assert rest[0] == s;
      if installed.Threw? {
        Throw(plan, b.lambda, trace, rest);
        return Rejected(installed.exception), trace + [s];
      }
      Advance(plan, trace, rest);
      trace, rest := trace + [s], rest[1..];
    }
    assert rest == requirements + post + pack;

    // index.js:70-73
    var requirementsTxtPath := h.findRequirements(req.entrypoint, files);
    if Truthy(requirementsTxtPath) {
      var installed := h.pipInstall(pipPath, srcDir, [Str("-r"), requirementsTxtPath]);
      var s := Step(InstallRequirements(pipPath, srcDir, requirementsTxtPath), installed.Error());
      assert rest[0] == s;
      if installed.Threw? {
        Throw(plan, b.lambda, trace, rest);
        return Rejected(installed.exception), trace + [s];
      }
      Advance(plan, trace, rest);
      trace, rest := trace + [s], rest[1..];
    }
    assert rest == post + pack;

    // index.js:76-79
    setupPath := h.findPostScript(req.entrypoint, files);
    if Truthy(setupPath) {
      var installed := h.runPostScript(setupPath);
      var s := Step(RunPostScript(setupPath), installed.Error());
      assert rest[0] == s;
      if installed.Threw? {
        Throw(plan, b.lambda, trace, rest);
        return Rejected(installed.exception), trace + [s];
      }
      Advance(plan, trace, rest);
      trace, rest := trace + [s], rest[1..];
    }
    assert rest == pack;

    result, trace := PrepareLambdaBundle(req, h, b, plan, trace);
  }

  /** index.js:97-114: collect the bundle with `glob`, create the Lambda from
      it and resolve to `{ output: lambda }`. */
  method PrepareLambdaBundle(req: Request, h: Host, ghost b: Bindings, ghost plan: seq<Step>, done: seq<Step>)
      returns (result: BuildResult, trace: seq<Step>)
    requires b == Bind(req, h)
    requires Pending(plan, done, Packaging(req, h, b))
    ensures Run(trace, result) == Resolve(plan, b.lambda)
    ensures |trace| > |done|
  {
    ghost var rest := Packaging(req, h, b);
    trace := done;

    // index.js:98-104
    var globOptions := BundleGlobOptions(req.workPath, req.config);
    var bundle := h.glob(GlobPattern, globOptions);
    var s := Step(Glob(GlobPattern, globOptions), bundle.Error());
    assert rest[0] == s;
    if bundle.Threw? {
      Throw(plan, b.lambda, trace, rest);
      return Rejected(bundle.exception), trace + [s];
    }
    Advance(plan, trace, rest);
    trace, rest := trace + [s], rest[1..];

    // index.js:106-111
    var spec := Descriptor(bundle.value, req.config);
    var lambda := h.createLambda(spec);
    s := Step(CreateLambda(spec), lambda.Error());
    assert rest == [s];
    if lambda.Threw? {
      Throw(plan, b.lambda, trace, rest);
      return Rejected(lambda.exception), trace + [s];
    }
    Advance(plan, trace, rest);
    trace, rest := trace + [s], rest[1..];

    // index.js:114
    Finish(plan, lambda.value, trace);
    return Built(map["output" := lambda.value]), trace;
  }
}

/** What `build` (index.js:25-115) does, stated as a specification: the
    steps it would take if every collaborator returned, cut after the first
    step that throws, and what it resolves to. The collaborators themselves
    (`./build-utils` and `@vercel/build-utils`) are uninterpreted: the fields
    of a `Host`. */
module Pipeline {
  import opened Js
  import opened BuildConfig

  /** What the platform passes to `build`. The `meta` argument is never read
      and is not modelled. */
  datatype Request = Request(workPath: Path, files: Files, entrypoint: string, config: Config)

  /** The Lambda `createLambda` produces, as an opaque handle. */
  datatype Lambda = Lambda(handle: string)

  /** The collaborators `build` calls, each as an uninterpreted function of
      the arguments `build` passes it. Every awaited call gives an `Outcome`;
      the three finders are synchronous, give a path or a falsy value, and
      are taken not to throw: `findSetupScript` is `linux.findRequirements`,
      `findRequirements` is `pip.findRequirements` and `findPostScript` is
      `linux.findPostRequirements`. Both scripts run through `linux.install`,
      but at different times, with the requirements installed in between, so
      its two calls are two fields: `runSetupScript` (index.js:66) and
      `runPostScript` (index.js:78); the same script can return at the first
      and throw at the second. Both pip installs go through `pip.install`
      (`pipInstall`, with its trailing arguments as a sequence; the two calls
      never share arguments). The two calls of `getWritableDirectory()` are
      `userBaseDir` and `srcDir`; `builderDir` is `__dirname`, the directory
      holding the builder and its `lambda` handler package. */
  datatype Host = Host(
    builderDir: Path,
    systemRelease: Outcome<string>,
    validateRuntime: Value -> Outcome<()>,
    findPythonBinary: Value -> Outcome<Path>,
    userBaseDir: Outcome<Path>,
    srcDir: Outcome<Path>,
    downloadAndInstallPip: Path -> Outcome<Path>,
    download: (Files, Path) -> Outcome<Files>,
    pipInstall: (Path, Path, seq<Value>) -> Outcome<()>,
    findSetupScript: (string, Files) -> Value,
    findRequirements: (string, Files) -> Value,
    findPostScript: (string, Files) -> Value,
    runSetupScript: Value -> Outcome<()>,
    runPostScript: Value -> Outcome<()>,
    glob: (string, GlobOptions) -> Outcome<Files>,
    createLambda: LambdaSpec -> Outcome<Lambda>)

  /** One thing `build` does that reaches outside it: a collaborator call with
      its arguments, or a write to `process.env`. */
  datatype Call =
    | ReadSystemRelease                                         // readFile('/etc/system-release')
    | ValidateRuntime(runtime: Value)                           // python.validateRuntime
    | FindPythonBinary(runtime: Value)                          // python.findPythonBinary
    | MakeUserBase                                              // getWritableDirectory()
    | SetUserBase(dir: Path)                                    // process.env.PYTHONUSERBASE = dir
    | InstallPip(pythonBin: Path)                               // pip.downloadAndInstallPip
    | MakeSrcDir                                                // getWritableDirectory()
    | Download(files: Files, dest: Path)                        // download
    | SetSrcDir(dir: Path)                                      // process.env.srcDir = dir
    | InstallHandler(pip: Path, target: Path, source: Path)     // pip.install(pipPath, srcDir, __dirname)
    | RunSetupScript(script: Value)                             // linux.install, before the requirements
    | InstallRequirements(pip: Path, target: Path, requirements: Value)  // pip.install(.., '-r', path)
    | RunPostScript(script: Value)                              // linux.install, after the requirements
    | Glob(pattern: string, options: GlobOptions)               // glob
    | CreateLambda(spec: LambdaSpec)                            // createLambda

  /** The position of each kind of call in the fixed stage order. */
  function Rank(c: Call): nat
  {
    match c
    case ReadSystemRelease => 0
    case ValidateRuntime(_) => 1
    case FindPythonBinary(_) => 2
    case MakeUserBase => 3
    case SetUserBase(_) => 4
    case InstallPip(_) => 5
    case MakeSrcDir => 6
    case Download(_, _) => 7
    case SetSrcDir(_) => 8
    case InstallHandler(_, _, _) => 9
    case RunSetupScript(_) => 10
    case InstallRequirements(_, _, _) => 11
    case RunPostScript(_) => 12
    case Glob(_, _) => 13
    case CreateLambda(_) => 14
  }

  /** The exception a call throws on this host, if any; writes to
      `process.env` never throw. (`Outcome.Error` is the same for one awaited
      call; this gives it for a step of the plan.) */
  function Raised(c: Call, h: Host): Option<Exception>
  {
    match c
    case ReadSystemRelease => h.systemRelease.Error()
    case ValidateRuntime(v) => h.validateRuntime(v).Error()
    case FindPythonBinary(v) => h.findPythonBinary(v).Error()
    case MakeUserBase => h.userBaseDir.Error()
    case SetUserBase(_) => None
    case InstallPip(bin) => h.downloadAndInstallPip(bin).Error()
    case MakeSrcDir => h.srcDir.Error()
    case Download(files, dest) => h.download(files, dest).Error()
    case SetSrcDir(_) => None
    case InstallHandler(pip, target, source) => h.pipInstall(pip, target, [Str(source)]).Error()
    case RunSetupScript(script) => h.runSetupScript(script).Error()
    case InstallRequirements(pip, target, reqs) => h.pipInstall(pip, target, [Str("-r"), reqs]).Error()
    case RunPostScript(script) => h.runPostScript(script).Error()
    case Glob(pattern, options) => h.glob(pattern, options).Error()
    case CreateLambda(spec) => h.createLambda(spec).Error()
  }

  /** The two runs of `linux.install` are separate outcomes: there is a host
      on which the same script returns as the setup script and throws as the
      post script. */
  lemma ScriptRunsAreIndependent(script: Value, e: Exception)
    ensures exists h: Host ::
      Raised(RunSetupScript(script), h) == None && Raised(RunPostScript(script), h) == Some(e)
  {
    var h := Host("", Returned(""), _ => Returned(()), _ => Returned(""), Returned(""), Returned(""),
      _ => Returned(""), (_, _) => Returned(map[]), (_, _, _) => Returned(()),
      (_, _) => Undefined, (_, _) => Undefined, (_, _) => Undefined,
      _ => Returned(()), _ => Threw(e), (_, _) => Returned(map[]), _ => Returned(Lambda("")));
    assert Raised(RunSetupScript(script), h) == None && Raised(RunPostScript(script), h) == Some(e);
  }

  /** A step of a build: a call, and the exception it threw if it did. */
  datatype Step = Step(call: Call, error: Option<Exception>)

  /** Making call `c` on this host. */
  function Attempt(c: Call, h: Host): Step
  {
    Step(c, Raised(c, h))
  }

  const UserBaseVariable: string := "PYTHONUSERBASE"
  const SrcDirVariable: string := "srcDir"

  /** The process environment after call `c`. */
  function Effect(env: map<string, string>, c: Call): (e: map<string, string>)
  {
    match c
    case SetUserBase(dir) => env[UserBaseVariable := dir]
    case SetSrcDir(dir) => env[SrcDirVariable := dir]
    case _ => env
  }

  /** The process environment after the steps of `t`, in order. */
  function ApplyEnv(env: map<string, string>, t: seq<Step>): (e: map<string, string>)
  {
    if t == [] then env else Effect(ApplyEnv(env, t[..|t| - 1]), t[|t| - 1].call)
  }

  lemma ApplyEnvSnoc(env: map<string, string>, t: seq<Step>, s: Step)
    ensures ApplyEnv(env, t + [s]) == Effect(ApplyEnv(env, t), s.call)
  {
    assert (t + [s])[..|t|] == t;
  }

  /** The value each `const` of `build` holds once the call that produces it
      has returned. A call that threw leaves a placeholder that is never
      observed: the plan is cut at that call (`CallsSeeEarlierResults`,
      `SuccessfulBuild`). */
  datatype Bindings = Bindings(
    runtime: Value, pythonBin: Path, userBase: Path, pipPath: Path, srcDir: Path,
    files: Files, setupPath: Value, requirementsPath: Value, postPath: Value,
    bundle: Files, spec: LambdaSpec, lambda: Lambda)

  function Bind(req: Request, h: Host): (b: Bindings)
  {
    var runtime := Runtime(req.config);
    var pythonBin := h.findPythonBinary(runtime).GetOr("");
    var pipPath := h.downloadAndInstallPip(pythonBin).GetOr("");
    var srcDir := h.srcDir.GetOr("");
    var files := h.download(req.files, srcDir).GetOr(map[]);
    var bundle := h.glob(GlobPattern, BundleGlobOptions(req.workPath, req.config)).GetOr(map[]);
    var spec := Descriptor(bundle, req.config);
    Bindings(
      runtime, pythonBin, h.userBaseDir.GetOr(""), pipPath, srcDir, files,
      h.findSetupScript(req.entrypoint, files),
      h.findRequirements(req.entrypoint, files),
      h.findPostScript(req.entrypoint, files),
      bundle, spec, h.createLambda(spec).GetOr(Lambda("")))
  }

  /** A step that is taken only when its finder gave a truthy path. */
  function Optional(found: Value, c: Call, h: Host): (s: seq<Step>)
  {
    if Truthy(found) then [Attempt(c, h)] else []
  }

  /** index.js:32-61: the steps that are always taken, up to installing the
      handler. */
  function Installs(req: Request, h: Host, b: Bindings): (s: seq<Step>)
  {
    [ Step(ReadSystemRelease, h.systemRelease.Error()),
      Step(ValidateRuntime(b.runtime), h.validateRuntime(b.runtime).Error()),
      Step(FindPythonBinary(b.runtime), h.findPythonBinary(b.runtime).Error()),
      Step(MakeUserBase, h.userBaseDir.Error()),
      Step(SetUserBase(b.userBase), None),
      Step(InstallPip(b.pythonBin), h.downloadAndInstallPip(b.pythonBin).Error()),
      Step(MakeSrcDir, h.srcDir.Error()),
      Step(Download(req.files, b.srcDir), h.download(req.files, b.srcDir).Error()),
      Step(SetSrcDir(b.srcDir), None),
      Step(InstallHandler(b.pipPath, b.srcDir, h.builderDir),
           h.pipInstall(b.pipPath, b.srcDir, [Str(h.builderDir)]).Error()) ]
  }

  /** index.js:64-79: the setup script, the requirements and the post script,
      each when found. */
  function Hooks(h: Host, b: Bindings): (s: seq<Step>)
  {
    Optional(b.setupPath, RunSetupScript(b.setupPath), h)
    + Optional(b.requirementsPath, InstallRequirements(b.pipPath, b.srcDir, b.requirementsPath), h)
    + Optional(b.postPath, RunPostScript(b.postPath), h)
  }

  /** index.js:98-111: collect the bundle and create the Lambda. */
  function Packaging(req: Request, h: Host, b: Bindings): (s: seq<Step>)
  {
    var options := BundleGlobOptions(req.workPath, req.config);
    [ Step(Glob(GlobPattern, options), h.glob(GlobPattern, options).Error()),
      Step(CreateLambda(b.spec), h.createLambda(b.spec).Error()) ]
  }

  /** Every step `build` takes when no collaborator throws. */
  function Plan(req: Request, h: Host): (p: seq<Step>)
    ensures 12 <= |p| <= 15
  {
    var b := Bind(req, h);
    Installs(req, h, b) + Hooks(h, b) + Packaging(req, h, b)
  }

  /** The steps that are taken: those of `plan` up to and including the
      first one that throws, or all of them when none throws. */
  function Executed(plan: seq<Step>): (t: seq<Step>)
    ensures t <= plan
    ensures plan != [] ==> t != []
    ensures forall i :: 0 <= i < |t| - 1 ==> t[i].error.None?
    ensures t == plan || t[|t| - 1].error.Some?
  {
    if plan == [] then []
    else if plan[0].error.Some? then [plan[0]]
    else [plan[0]] + Executed(plan[1..])
  }

  /** What `build` resolves to: `{ output: lambda }`, or the exception it is
      rejected with. */
  datatype BuildResult = Built(output: map<string, Lambda>) | Rejected(exception: Exception)

  datatype Run = Run(trace: seq<Step>, result: BuildResult)

  /** A build that steps through `plan`: the steps it takes, and what it
      resolves to, the exception of the step that threw or `{ output:
      lambda }`. */
  function Resolve(plan: seq<Step>, lambda: Lambda): (r: Run)
    requires plan != []
  {
    var trace := Executed(plan);
    var last := trace[|trace| - 1];
    if last.error.Some? then Run(trace, Rejected(last.error.value))
    else Run(trace, Built(map["output" := lambda]))
  }

  /** The steps `build` takes on this host and what it resolves to. */
  function Expected(req: Request, h: Host): (r: Run)
  {
    Resolve(Plan(req, h), Bind(req, h).lambda)
  }

  /** A build is rejected exactly when a step it took threw; that step is
      the last one taken and its exception is the one the build is rejected
      with. A build that is not rejected took every step of the plan, none of
      which threw. */
  lemma ResolveFacts(plan: seq<Step>, lambda: Lambda)
    requires plan != []
    ensures var r := Resolve(plan, lambda);
      && r.trace <= plan && r.trace != []
      && (r.result.Rejected? <==> exists i :: 0 <= i < |r.trace| && r.trace[i].error.Some?)
      && (forall i :: 0 <= i < |r.trace| && r.trace[i].error.Some? ==>
            i == |r.trace| - 1 && r.result == Rejected(r.trace[i].error.value))
      && (r.result.Built? ==>
            && r.trace == plan && r.result == Built(map["output" := lambda])
            && forall i :: 0 <= i < |plan| ==> plan[i].error.None?)
  {
    var t := Executed(plan);
    if t[|t| - 1].error.Some? {
      assert 0 <= |t| - 1 < |t|;
    }
  }

  /** The first `n` steps of the plan were taken and returned when more than
      `n` steps were taken. */
  lemma TakenStepsReturned(plan: seq<Step>, n: nat)
    requires n < |Executed(plan)|
    ensures forall i :: 0 <= i < n ==> plan[i].error.None? && Executed(plan)[i] == plan[i]
  {
  }

  // ---------------------------------------------------------------------
  // Stepping through the plan, as the implementation of `build` does

  // Two forms of the same device. `Pending` names what is left of the plan
  // and suits the optional steps, whose positions depend on the finders;
  // `Done` counts the steps taken and suits the fixed steps, whose
  // positions are known, where slicing the plan was far more costly to prove.

  /** The steps of `trace` were taken without a throw and `rest` is what is
      left of `plan`. */
  ghost predicate Pending(plan: seq<Step>, trace: seq<Step>, rest: seq<Step>)
  {
    plan == trace + rest && forall i :: 0 <= i < |trace| ==> trace[i].error.None?
  }

  lemma {:induction false} ExecutedAfter(done: seq<Step>, rest: seq<Step>)
    requires forall i :: 0 <= i < |done| ==> done[i].error.None?
    ensures Executed(done + rest) == done + Executed(rest)
    decreases |done|
  {
    var p := done + rest;
    if done == [] {
      assert p == rest;
    } else {
      assert p[0] == done[0] && p[1..] == done[1..] + rest;
      ExecutedAfter(done[1..], rest);
      calc {
        Executed(p);
        [done[0]] + Executed(done[1..] + rest);
        [done[0]] + (done[1..] + Executed(rest));
        ([done[0]] + done[1..]) + Executed(rest);
        { assert [done[0]] + done[1..] == done; }
        done + Executed(rest);
      }
    }
  }

  /** The next step returns: it joins the trace. */
  lemma Advance(plan: seq<Step>, trace: seq<Step>, rest: seq<Step>)
    requires Pending(plan, trace, rest) && rest != [] && rest[0].error.None?
    ensures Pending(plan, trace + [rest[0]], rest[1..])
  {
    assert trace + rest == (trace + [rest[0]]) + rest[1..];
  }

  /** The next step throws: the build is rejected with its exception and
      nothing after it is taken. */
  lemma Throw(plan: seq<Step>, lambda: Lambda, trace: seq<Step>, rest: seq<Step>)
    requires Pending(plan, trace, rest) && rest != [] && rest[0].error.Some?
    ensures Resolve(plan, lambda) == Run(trace + [rest[0]], Rejected(rest[0].error.value))
  {
    ExecutedAfter(trace, rest);
  }

  /** The steps of `trace` are the first steps of `plan`, and none threw. */
  ghost predicate Done(plan: seq<Step>, trace: seq<Step>)
  {
    |trace| <= |plan| && forall i :: 0 <= i < |trace| ==> trace[i] == plan[i] && trace[i].error.None?
  }

  /** Step `|trace|` of the plan returns: it joins the trace. */
  lemma AdvanceAt(plan: seq<Step>, trace: seq<Step>)
    requires Done(plan, trace) && |trace| < |plan| && plan[|trace|].error.None?
    ensures Done(plan, trace + [plan[|trace|]])
  {
  }

  /** Step `|trace|` of the plan throws: the build is rejected with its
      exception and nothing after it is taken. */
  lemma ThrowAt(plan: seq<Step>, lambda: Lambda, trace: seq<Step>)
    requires Done(plan, trace) && |trace| < |plan| && plan[|trace|].error.Some?
    ensures Resolve(plan, lambda) == Run(trace + [plan[|trace|]], Rejected(plan[|trace|].error.value))
  {
    DoneIsPending(plan, trace);
    Throw(plan, lambda, trace, plan[|trace|..]);
  }

  lemma DoneIsPending(plan: seq<Step>, trace: seq<Step>)
    requires Done(plan, trace)
    ensures Pending(plan, trace, plan[|trace|..])
  {
    assert plan == trace + plan[|trace|..];
  }

  /** The whole plan was taken: the build resolves to `{ output: lambda }`. */
  lemma Finish(plan: seq<Step>, lambda: Lambda, trace: seq<Step>)
    requires plan != [] && Pending(plan, trace, [])
    ensures Resolve(plan, lambda) == Run(trace, Built(map["output" := lambda]))
  {
    ExecutedAfter(trace, []);
    assert trace + [] == trace;
  }

  // ---------------------------------------------------------------------
  // Properties of the build

  /** Each step comes later in the stage order than the one before it. */
  ghost predicate InStageOrder(t: seq<Step>)
  {
    forall i, j :: 0 <= i < j < |t| ==> Rank(t[i].call) < Rank(t[j].call)
  }

  /** Every step of `t` belongs to one of the stages `lo` to `hi - 1`. */
  ghost predicate StagesWithin(t: seq<Step>, lo: nat, hi: nat)
  {
    forall i :: 0 <= i < |t| ==> lo <= Rank(t[i].call) < hi
  }

  /** `t` takes a step of stage `k`. */
  ghost predicate TakesStage(t: seq<Step>, k: nat)
  {
    exists i :: 0 <= i < |t| && Rank(t[i].call) == k
  }

  /** Every step of stage `k` in `t` makes the call `c`. */
  ghost predicate StageIs(t: seq<Step>, k: nat, c: Call)
  {
    forall i :: 0 <= i < |t| && Rank(t[i].call) == k ==> t[i].call == c
  }

  /** A segment of the stages before `mid` followed by a segment of the
      stages from `mid` on is again in stage order. */
  lemma ConcatInStageOrder(a: seq<Step>, b: seq<Step>, lo: nat, mid: nat, hi: nat)
    requires lo <= mid <= hi
    requires InStageOrder(a) && StagesWithin(a, lo, mid)
    requires InStageOrder(b) && StagesWithin(b, mid, hi)
    ensures InStageOrder(a + b) && StagesWithin(a + b, lo, hi)
  {
    var ab := a + b;
    forall i, j | 0 <= i < j < |ab| ensures Rank(ab[i].call) < Rank(ab[j].call) {
      if j < |a| {
        assert ab[i] == a[i] && ab[j] == a[j];
      } else if i < |a| {
        assert ab[i] == a[i] && ab[j] == b[j - |a|];
      } else {
        assert ab[i] == b[i - |a|] && ab[j] == b[j - |a|];
      }
    }
    forall i | 0 <= i < |ab| ensures lo <= Rank(ab[i].call) < hi {
      if i < |a| {
        assert ab[i] == a[i];
      } else {
        assert ab[i] == b[i - |a|];
      }
    }
  }

  /** The stages a concatenation takes, and the calls it makes at them, are
      those of its parts. */
  lemma ConcatStages(a: seq<Step>, b: seq<Step>, k: nat, c: Call)
    ensures TakesStage(a + b, k) <==> TakesStage(a, k) || TakesStage(b, k)
    ensures StageIs(a, k, c) && StageIs(b, k, c) ==> StageIs(a + b, k, c)
  {
    var ab := a + b;
    if TakesStage(ab, k) {
      var i :| 0 <= i < |ab| && Rank(ab[i].call) == k;
      if i < |a| {
        assert ab[i] == a[i];
      } else {
        assert ab[i] == b[i - |a|];
      }
    }
    if TakesStage(a, k) {
      var i :| 0 <= i < |a| && Rank(a[i].call) == k;
      assert ab[i] == a[i];
    }
    if TakesStage(b, k) {
      var i :| 0 <= i < |b| && Rank(b[i].call) == k;
      assert ab[|a| + i] == b[i];
    }
    if StageIs(a, k, c) && StageIs(b, k, c) {
      forall i | 0 <= i < |ab| && Rank(ab[i].call) == k ensures ab[i].call == c {
        if i < |a| {
          assert ab[i] == a[i];
        } else {
          assert ab[i] == b[i - |a|];
        }
      }
    }
  }

  /** A segment takes no stage outside the ones it belongs to. */
  lemma OutsideStages(t: seq<Step>, lo: nat, hi: nat, k: nat, c: Call)
    requires StagesWithin(t, lo, hi) && (k < lo || hi <= k)
    ensures !TakesStage(t, k) && StageIs(t, k, c)
  {
  }

  /** An optional step is taken exactly when its path was found. */
  lemma OptionalSegment(found: Value, c: Call, h: Host)
    ensures var o := Optional(found, c, h);
      && InStageOrder(o) && StagesWithin(o, Rank(c), Rank(c) + 1)
      && (TakesStage(o, Rank(c)) <==> Truthy(found))
      && StageIs(o, Rank(c), c)
  {
    if Truthy(found) {
      assert Optional(found, c, h)[0].call == c;
    }
  }

  lemma InstallsSegment(req: Request, h: Host, b: Bindings)
    ensures InStageOrder(Installs(req, h, b)) && StagesWithin(Installs(req, h, b), 0, 10)
  {
    var ins := Installs(req, h, b);
    assert forall i :: 0 <= i < |ins| ==> Rank(ins[i].call) == i;
  }

  lemma PackagingSegment(req: Request, h: Host, b: Bindings)
    ensures InStageOrder(Packaging(req, h, b)) && StagesWithin(Packaging(req, h, b), 13, 15)
  {
    var pack := Packaging(req, h, b);
    assert Rank(pack[0].call) == 13 && Rank(pack[1].call) == 14;
  }

  lemma HooksSegment(h: Host, b: Bindings)
    ensures var hooks := Hooks(h, b);
      && InStageOrder(hooks) && StagesWithin(hooks, 10, 13)
      && (TakesStage(hooks, 10) <==> Truthy(b.setupPath))
      && (TakesStage(hooks, 11) <==> Truthy(b.requirementsPath))
      && (TakesStage(hooks, 12) <==> Truthy(b.postPath))
      && StageIs(hooks, 10, RunSetupScript(b.setupPath))
      && StageIs(hooks, 11, InstallRequirements(b.pipPath, b.srcDir, b.requirementsPath))
      && StageIs(hooks, 12, RunPostScript(b.postPath))
  {
    ThreeOptional(Hooks(h, b), b.setupPath, b.requirementsPath, b.postPath, RunSetupScript(b.setupPath),
      InstallRequirements(b.pipPath, b.srcDir, b.requirementsPath), RunPostScript(b.postPath), h);
  }

  /** Three optional steps of stages 10, 11 and 12, in a row. */
  lemma ThreeOptional(t: seq<Step>, f10: Value, f11: Value, f12: Value, c10: Call, c11: Call, c12: Call, h: Host)
    requires Rank(c10) == 10 && Rank(c11) == 11 && Rank(c12) == 12
    requires t == Optional(f10, c10, h) + Optional(f11, c11, h) + Optional(f12, c12, h)
    ensures InStageOrder(t) && StagesWithin(t, 10, 13)
    ensures (TakesStage(t, 10) <==> Truthy(f10)) && (TakesStage(t, 11) <==> Truthy(f11))
      && (TakesStage(t, 12) <==> Truthy(f12))
    ensures StageIs(t, 10, c10) && StageIs(t, 11, c11) && StageIs(t, 12, c12)
  {
    OptionalSegment(f10, c10, h);
    OptionalSegment(f11, c11, h);
    OptionalSegment(f12, c12, h);
    ThreeStages(t, Optional(f10, c10, h), Optional(f11, c11, h), Optional(f12, c12, h), c10, c11, c12);
  }

  /** Three segments `t`, of one stage each, 10, 11 and 12, in a row. */
  lemma ThreeStages(t: seq<Step>, s: seq<Step>, r: seq<Step>, q: seq<Step>, c10: Call, c11: Call, c12: Call)
    requires t == s + r + q
    requires InStageOrder(s) && StagesWithin(s, 10, 11) && StageIs(s, 10, c10)
    requires InStageOrder(r) && StagesWithin(r, 11, 12) && StageIs(r, 11, c11)
    requires InStageOrder(q) && StagesWithin(q, 12, 13) && StageIs(q, 12, c12)
    ensures InStageOrder(t) && StagesWithin(t, 10, 13)
    ensures TakesStage(t, 10) <==> TakesStage(s, 10)
    ensures TakesStage(t, 11) <==> TakesStage(r, 11)
    ensures TakesStage(t, 12) <==> TakesStage(q, 12)
    ensures StageIs(t, 10, c10) && StageIs(t, 11, c11) && StageIs(t, 12, c12)
  {
    ConcatInStageOrder(s, r, 10, 11, 12);
    ConcatInStageOrder(s + r, q, 10, 12, 13);
    OutsideStages(s, 10, 11, 11, c11);
    OutsideStages(s, 10, 11, 12, c12);
    OutsideStages(r, 11, 12, 10, c10);
    OutsideStages(r, 11, 12, 12, c12);
    OutsideStages(q, 12, 13, 10, c10);
    OutsideStages(q, 12, 13, 11, c11);
    StageOfThree(s, r, q, 10, c10);
    StageOfThree(r, s, q, 11, c11);
    StageOfThree(q, s, r, 12, c12);
  }

  /** Joined with two parts that do not take stage `k`, in any of the
      positions used here, `x` alone decides stage `k`. */
  lemma StageOfThree(x: seq<Step>, y: seq<Step>, z: seq<Step>, k: nat, c: Call)
    requires StageIs(x, k, c)
    requires !TakesStage(y, k) && StageIs(y, k, c)
    requires !TakesStage(z, k) && StageIs(z, k, c)
    ensures (TakesStage(x + y + z, k) <==> TakesStage(x, k)) && StageIs(x + y + z, k, c)
    ensures (TakesStage(y + x + z, k) <==> TakesStage(x, k)) && StageIs(y + x + z, k, c)
    ensures (TakesStage(y + z + x, k) <==> TakesStage(x, k)) && StageIs(y + z + x, k, c)
  {
    ConcatStages(x, y, k, c);
    ConcatStages(x + y, z, k, c);
    ConcatStages(y, x, k, c);
    ConcatStages(y + x, z, k, c);
    ConcatStages(y, z, k, c);
    ConcatStages(y + z, x, k, c);
  }

  /** What the plan takes, stage by stage: the fixed stages in order, and
      the three optional ones exactly when found, with the path found. */
  lemma PlanSegments(req: Request, h: Host)
    ensures var p := Plan(req, h); var b := Bind(req, h);
      && InStageOrder(p)
      && (TakesStage(p, 10) <==> Truthy(b.setupPath))
      && (TakesStage(p, 11) <==> Truthy(b.requirementsPath))
      && (TakesStage(p, 12) <==> Truthy(b.postPath))
      && StageIs(p, 10, RunSetupScript(b.setupPath))
      && StageIs(p, 11, InstallRequirements(b.pipPath, b.srcDir, b.requirementsPath))
      && StageIs(p, 12, RunPostScript(b.postPath))
  {
    var b := Bind(req, h);
    var ins, hooks, pack := Installs(req, h, b), Hooks(h, b), Packaging(req, h, b);
    InstallsSegment(req, h, b);
    HooksSegment(h, b);
    PackagingSegment(req, h, b);
    ConcatInStageOrder(ins, hooks, 0, 10, 13);
    ConcatInStageOrder(ins + hooks, pack, 0, 13, 15);
    HookStagesOfPlan(ins, hooks, pack, RunSetupScript(b.setupPath), 10);
    HookStagesOfPlan(ins, hooks, pack, InstallRequirements(b.pipPath, b.srcDir, b.requirementsPath), 11);
    HookStagesOfPlan(ins, hooks, pack, RunPostScript(b.postPath), 12);
  }

  lemma HookStagesOfPlan(ins: seq<Step>, hooks: seq<Step>, pack: seq<Step>, c: Call, k: nat)
    requires StagesWithin(ins, 0, 10) && StagesWithin(pack, 13, 15) && 10 <= k < 13
    ensures TakesStage(ins + hooks + pack, k) <==> TakesStage(hooks, k)
    ensures StageIs(hooks, k, c) ==> StageIs(ins + hooks + pack, k, c)
  {
    OutsideStages(ins, 0, 10, k, c);
    OutsideStages(pack, 13, 15, k, c);
    ConcatStages(ins, hooks, k, c);
    ConcatStages(ins + hooks, pack, k, c);
  }

  /** The planned steps follow the fixed stage order: read the system
      release, validate the runtime, find the Python binary, make and export
      the user base, install pip, make the source directory, download into it
      and export it, install the handler, then the setup script, the
      requirements and the post script, then glob and create the Lambda; no
      stage occurs twice. */
  lemma PlanInStageOrder(req: Request, h: Host)
    ensures InStageOrder(Plan(req, h))
  {
    PlanSegments(req, h);
  }

  /** So do the steps that are actually taken, whether the build succeeds or
      not; in particular the setup script runs before the post script. */
  lemma TraceInStageOrder(req: Request, h: Host)
    ensures InStageOrder(Expected(req, h).trace)
    ensures var t := Expected(req, h).trace;
      forall i, j :: 0 <= i < |t| && 0 <= j < |t| && t[i].call.RunSetupScript? && t[j].call.RunPostScript? ==> i < j
  {
    var t := Expected(req, h).trace;
    PlanInStageOrder(req, h);
    PrefixInStageOrder(t, Plan(req, h));
    SetupBeforePost(t);
  }

  lemma PrefixInStageOrder(t: seq<Step>, p: seq<Step>)
    requires t <= p && InStageOrder(p)
    ensures InStageOrder(t)
  {
    forall i, j | 0 <= i < j < |t| ensures Rank(t[i].call) < Rank(t[j].call) {
      assert t[i] == p[i] && t[j] == p[j];
    }
  }

  lemma SetupBeforePost(t: seq<Step>)
    requires InStageOrder(t)
    ensures forall i, j :: 0 <= i < |t| && 0 <= j < |t| && t[i].call.RunSetupScript? && t[j].call.RunPostScript? ==> i < j
  {
  }

  /** `t` runs the setup script. */
  ghost predicate HasSetupScript(t: seq<Step>)
  {
    exists i :: 0 <= i < |t| && t[i].call.RunSetupScript?
  }

  /** `t` installs the requirements. */
  ghost predicate HasRequirements(t: seq<Step>)
  {
    exists i :: 0 <= i < |t| && t[i].call.InstallRequirements?
  }

  /** `t` runs the post script. */
  ghost predicate HasPostScript(t: seq<Step>)
  {
    exists i :: 0 <= i < |t| && t[i].call.RunPostScript?
  }

  /** The three optional steps are the stages 10, 11 and 12. */
  lemma HookStages(t: seq<Step>, setup: Call, requirements: Call, post: Call)
    requires StageIs(t, 10, setup) && StageIs(t, 11, requirements) && StageIs(t, 12, post)
    ensures HasSetupScript(t) <==> TakesStage(t, 10)
    ensures HasRequirements(t) <==> TakesStage(t, 11)
    ensures HasPostScript(t) <==> TakesStage(t, 12)
    ensures forall i :: 0 <= i < |t| ==>
      && (t[i].call.RunSetupScript? ==> t[i].call == setup)
      && (t[i].call.InstallRequirements? ==> t[i].call == requirements)
      && (t[i].call.RunPostScript? ==> t[i].call == post)
  {
  }

  /** Each of the setup script, the requirements install and the post script
      is planned exactly when its finder, given the entrypoint and the
      downloaded files, returns a truthy path, and it is that path which is
      installed. */
  lemma HooksRunIffFound(req: Request, h: Host)
    ensures var b := Bind(req, h); var p := Plan(req, h);
      && (HasSetupScript(p) <==> Truthy(h.findSetupScript(req.entrypoint, b.files)))
      && (HasRequirements(p) <==> Truthy(h.findRequirements(req.entrypoint, b.files)))
      && (HasPostScript(p) <==> Truthy(h.findPostScript(req.entrypoint, b.files)))
    ensures var b := Bind(req, h); var p := Plan(req, h);
      forall i :: 0 <= i < |p| ==>
        && (p[i].call.RunSetupScript? ==> p[i].call.script == h.findSetupScript(req.entrypoint, b.files))
        && (p[i].call.InstallRequirements? ==>
              p[i].call == InstallRequirements(b.pipPath, b.srcDir, h.findRequirements(req.entrypoint, b.files)))
        && (p[i].call.RunPostScript? ==> p[i].call.script == h.findPostScript(req.entrypoint, b.files))
  {
    var b := Bind(req, h);
    PlanSegments(req, h);
    HookStages(Plan(req, h), RunSetupScript(b.setupPath),
      InstallRequirements(b.pipPath, b.srcDir, b.requirementsPath), RunPostScript(b.postPath));
  }

  /** Every planned step records what its call does on the host. */
  lemma PlanRecordsHost(req: Request, h: Host)
    ensures forall i :: 0 <= i < |Plan(req, h)| ==> Plan(req, h)[i].error == Raised(Plan(req, h)[i].call, h)
  {
    var b := Bind(req, h);
    var ins, hooks, pack := Installs(req, h, b), Hooks(h, b), Packaging(req, h, b);
    assert forall i :: 0 <= i < |ins| ==> ins[i].error == Raised(ins[i].call, h);
    assert forall i :: 0 <= i < |hooks| ==> hooks[i].error == Raised(hooks[i].call, h);
  }

  lemma PrefixRecordsHost(t: seq<Step>, p: seq<Step>, h: Host)
    requires t <= p && forall i :: 0 <= i < |p| ==> p[i].error == Raised(p[i].call, h)
    ensures forall i :: 0 <= i < |t| ==> t[i].error == Raised(t[i].call, h)
  {
    forall i | 0 <= i < |t| ensures t[i].error == Raised(t[i].call, h) {
      assert t[i] == p[i];
    }
  }

  /** The fixed steps of the plan, with the arguments `build` passes. */
  lemma InstallsOfPlan(req: Request, h: Host)
    ensures var p := Plan(req, h); var b := Bind(req, h);
      && p[0] == Step(ReadSystemRelease, h.systemRelease.Error())
      && p[1] == Step(ValidateRuntime(b.runtime), h.validateRuntime(b.runtime).Error())
      && p[2] == Step(FindPythonBinary(b.runtime), h.findPythonBinary(b.runtime).Error())
      && p[3] == Step(MakeUserBase, h.userBaseDir.Error())
      && p[4] == Step(SetUserBase(b.userBase), None)
      && p[5] == Step(InstallPip(b.pythonBin), h.downloadAndInstallPip(b.pythonBin).Error())
      && p[6] == Step(MakeSrcDir, h.srcDir.Error())
      && p[7] == Step(Download(req.files, b.srcDir), h.download(req.files, b.srcDir).Error())
      && p[8] == Step(SetSrcDir(b.srcDir), None)
      && p[9] == Step(InstallHandler(b.pipPath, b.srcDir, h.builderDir),
                      h.pipInstall(b.pipPath, b.srcDir, [Str(h.builderDir)]).Error())
  {
    var b := Bind(req, h);
    assert Plan(req, h) == Installs(req, h, b) + (Hooks(h, b) + Packaging(req, h, b));
  }

  /** The last two steps of the plan collect the bundle and create the
      Lambda. */
  lemma PackagingOfPlan(req: Request, h: Host)
    ensures var p := Plan(req, h); var b := Bind(req, h);
      && p[|p| - 2].call == Glob(GlobPattern, BundleGlobOptions(req.workPath, req.config))
      && p[|p| - 2].error == h.glob(GlobPattern, BundleGlobOptions(req.workPath, req.config)).Error()
      && p[|p| - 1] == Step(CreateLambda(b.spec), h.createLambda(b.spec).Error())
  {
    var b := Bind(req, h);
    var front, pack := Installs(req, h, b) + Hooks(h, b), Packaging(req, h, b);
    assert Plan(req, h) == front + pack;
    assert |Plan(req, h)| == |front| + 2;
  }

  /** A build is rejected exactly when one of the steps it took threw; that
      step is the last one taken and the build is rejected with the exception
      the host's collaborator threw, so nothing after a failing step is taken
      and no Lambda is returned. A build that is not rejected took every
      planned step. */
  lemma FailureStopsTheBuild(req: Request, h: Host)
    ensures var r := Expected(req, h);
      && r.trace <= Plan(req, h)
      && (forall i :: 0 <= i < |r.trace| ==> r.trace[i].error == Raised(r.trace[i].call, h))
      && (r.result.Rejected? <==> exists i :: 0 <= i < |r.trace| && r.trace[i].error.Some?)
      && (forall i :: 0 <= i < |r.trace| && r.trace[i].error.Some? ==>
            i == |r.trace| - 1 && r.result == Rejected(r.trace[i].error.value))
      && (r.result.Built? ==> r.trace == Plan(req, h))
  {
    var p := Plan(req, h);
    ResolveFacts(p, Bind(req, h).lambda);
    PlanRecordsHost(req, h);
    PrefixRecordsHost(Expected(req, h).trace, p, h);
  }

  /** The scenario where the project has a requirements file and installing
      it fails: the build is rejected, with pip's exception once it gets as
      far as the requirements, and neither the post script nor the packaging
      is taken. */
  lemma FailedRequirementsInstallAborts(req: Request, h: Host)
    requires Truthy(Bind(req, h).requirementsPath)
    requires var b := Bind(req, h); h.pipInstall(b.pipPath, b.srcDir, [Str("-r"), b.requirementsPath]).Threw?
    ensures Expected(req, h).result.Rejected?
    ensures var b := Bind(req, h); var r := Expected(req, h);
      HasRequirements(r.trace) ==>
        r.result == Rejected(h.pipInstall(b.pipPath, b.srcDir, [Str("-r"), b.requirementsPath]).exception)
    ensures var t := Expected(req, h).trace;
      forall j :: 0 <= j < |t| ==> !t[j].call.RunPostScript? && !t[j].call.Glob? && !t[j].call.CreateLambda?
  {
    var b, p, r := Bind(req, h), Plan(req, h), Expected(req, h);
    var k := RequirementsStepOfPlan(req, h);
    var c := InstallRequirements(b.pipPath, b.srcDir, b.requirementsPath);
    assert p[k].error == h.pipInstall(b.pipPath, b.srcDir, [Str("-r"), b.requirementsPath]).Error();
    ResolveFacts(p, b.lambda);
    PlanInStageOrder(req, h);
    RequirementsFailureEnds(r.trace, r.result, p, k);
  }

  /** A build stepping through `p`, whose step `k` is a requirements install
      that throws, ends there at the latest. */
  lemma RequirementsFailureEnds(t: seq<Step>, result: BuildResult, p: seq<Step>, k: nat)
    requires t <= p && InStageOrder(p) && k < |p| && p[k].error.Some? && p[k].call.InstallRequirements?
    requires forall j :: 0 <= j < |t| && t[j].error.Some? ==> j == |t| - 1 && result == Rejected(t[j].error.value)
    requires result.Built? ==> t == p
    ensures result.Rejected?
    ensures HasRequirements(t) ==> result == Rejected(p[k].error.value)
    ensures forall j :: 0 <= j < |t| ==> !t[j].call.RunPostScript? && !t[j].call.Glob? && !t[j].call.CreateLambda?
  {
    StopsAtFailedStage(t, result, p, k);
    if HasRequirements(t) {
      var i :| 0 <= i < |t| && t[i].call.InstallRequirements?;
      assert Rank(t[i].call) == Rank(p[k].call);
    }
  }

  /** Where the requirements install sits in the plan, when a requirements
      file was found. */
  lemma RequirementsStepOfPlan(req: Request, h: Host) returns (k: nat)
    requires Truthy(Bind(req, h).requirementsPath)
    ensures var b := Bind(req, h);
      && k < |Plan(req, h)|
      && Plan(req, h)[k] == Attempt(InstallRequirements(b.pipPath, b.srcDir, b.requirementsPath), h)
  {
    var b := Bind(req, h);
    var setup := Optional(b.setupPath, RunSetupScript(b.setupPath), h);
    var hooks := Hooks(h, b);
    assert hooks[|setup|] == Attempt(InstallRequirements(b.pipPath, b.srcDir, b.requirementsPath), h);
    assert Plan(req, h) == Installs(req, h, b) + hooks + Packaging(req, h, b);
    k := 10 + |setup|;
  }

  /** A build whose plan holds a step that throws is rejected; it takes no
      step of a later stage, and when it reaches that step's stage it is
      rejected with that step's exception. */
  lemma StopsAtFailedStage(t: seq<Step>, result: BuildResult, p: seq<Step>, k: nat)
    requires t <= p && InStageOrder(p) && k < |p| && p[k].error.Some?
    requires forall j :: 0 <= j < |t| && t[j].error.Some? ==> j == |t| - 1 && result == Rejected(t[j].error.value)
    requires result.Built? ==> t == p
    ensures result.Rejected?
    ensures forall j :: 0 <= j < |t| ==> Rank(t[j].call) <= Rank(p[k].call)
    ensures (exists i :: 0 <= i < |t| && Rank(t[i].call) == Rank(p[k].call)) ==> result == Rejected(p[k].error.value)
  {
    assert |t| <= k + 1;
    forall j | 0 <= j < |t| ensures Rank(t[j].call) <= Rank(p[k].call) {
      assert t[j] == p[j];
    }
    if i :| 0 <= i < |t| && Rank(t[i].call) == Rank(p[k].call) {
      assert t[i] == p[i];
      assert i == k;
      assert t[k].error.Some?;
    }
  }

  /** Once the build gets past installing the handler, every fixed step
      before it returned, and the arguments passed on are what those steps
      returned: pip was installed with the Python binary found for the
      validated runtime, the project was downloaded into the source
      directory that was made, and the finders see the files the download
      returned. */
  lemma CallsSeeEarlierResults(req: Request, h: Host)
    ensures var t := Expected(req, h).trace; var b := Bind(req, h);
      |t| > 10 ==>
        && h.systemRelease.Returned?
        && h.validateRuntime(Runtime(req.config)).Returned?
        && h.findPythonBinary(Runtime(req.config)) == Returned(b.pythonBin)
        && h.userBaseDir == Returned(b.userBase)
        && h.downloadAndInstallPip(b.pythonBin) == Returned(b.pipPath)
        && h.srcDir == Returned(b.srcDir)
        && h.download(req.files, b.srcDir) == Returned(b.files)
        && h.pipInstall(b.pipPath, b.srcDir, [Str(h.builderDir)]).Returned?
        && b.setupPath == h.findSetupScript(req.entrypoint, b.files)
        && b.requirementsPath == h.findRequirements(req.entrypoint, b.files)
        && b.postPath == h.findPostScript(req.entrypoint, b.files)
  {
    var b := Bind(req, h);
    if |Expected(req, h).trace| > 10 {
      var p := Plan(req, h);
      TakenStepsReturned(p, 10);
      InstallsOfPlan(req, h);
      assert p[1].error.None? && p[2].error.None? && p[3].error.None?;
      assert p[5].error.None? && p[6].error.None? && p[7].error.None?;
      assert p[0].error.None? && p[9].error.None?;
      EarlyCallsReturned(req, h, b);
    }
  }

  /** Which outcomes the fixed steps before the handler install saw, when
      none of them threw. */
  lemma EarlyCallsReturned(req: Request, h: Host, b: Bindings)
    requires b == Bind(req, h)
    requires h.validateRuntime(b.runtime).Error().None? && h.findPythonBinary(b.runtime).Error().None?
    requires h.userBaseDir.Error().None? && h.downloadAndInstallPip(b.pythonBin).Error().None?
    requires h.srcDir.Error().None? && h.download(req.files, b.srcDir).Error().None?
    ensures h.validateRuntime(b.runtime).Returned?
    ensures h.findPythonBinary(b.runtime) == Returned(b.pythonBin)
    ensures h.userBaseDir == Returned(b.userBase)
    ensures h.downloadAndInstallPip(b.pythonBin) == Returned(b.pipPath)
    ensures h.srcDir == Returned(b.srcDir)
    ensures h.download(req.files, b.srcDir) == Returned(b.files)
  {
  }

  /** A successful build resolves to an object whose only key is `output`
      (not the entrypoint), holding the Lambda `createLambda` returned for a
      descriptor with the fixed handler, an empty environment, the files the
      glob over the work path returned and, as runtime, the text of the
      runtime that was validated. The handler package was installed from the
      builder's own directory. */
  lemma SuccessfulBuild(req: Request, h: Host)
    requires Expected(req, h).result.Built?
    ensures var r := Expected(req, h); var t := r.trace; var b := Bind(req, h);
      && |t| >= 12
      && t[1].call == ValidateRuntime(Runtime(req.config))
      && t[9].call == InstallHandler(b.pipPath, b.srcDir, h.builderDir)
      && t[|t| - 2].call == Glob(GlobPattern, GlobOptions(req.workPath, Ignore(req.config)))
      && h.glob(GlobPattern, GlobOptions(req.workPath, Ignore(req.config))) == Returned(b.spec.files)
      && t[|t| - 1].call == CreateLambda(b.spec)
      && b.spec.handler == Handler
      && b.spec.environment == map[]
      && b.spec.runtime == Template(t[1].call.runtime)
      && h.createLambda(b.spec) == Returned(b.lambda)
      && r.result.output.Keys == {"output"}
      && r.result.output["output"] == b.lambda
      && (req.entrypoint in r.result.output ==> req.entrypoint == "output")
  {
    ResolveFacts(Plan(req, h), Bind(req, h).lambda);
    InstallsOfPlan(req, h);
    PackagingOfPlan(req, h);
  }

  /** The WSGI application computed from `wsgiApplicationName` is only
      logged: changing it changes nothing the build does or returns. */
  lemma WsgiApplicationNameHasNoEffect(req: Request, h: Host, name: Value)
    ensures Expected(req.(config := req.config.(wsgiApplicationName := name)), h) == Expected(req, h)
  {
    var req' := req.(config := req.config.(wsgiApplicationName := name));
    assert Bind(req', h) == Bind(req, h);
    assert Plan(req', h) == Plan(req, h);
  }

  /** After a successful build the process environment still points
      `PYTHONUSERBASE` and `srcDir` at this build's directories: nothing
      restores them, so they outlive the build in the process. Every other
      variable is as it was. */
  lemma EnvironmentAfterSuccess(req: Request, h: Host, env: map<string, string>)
    requires Expected(req, h).result.Built?
    ensures var e := ApplyEnv(env, Expected(req, h).trace); var b := Bind(req, h);
      && UserBaseVariable in e && e[UserBaseVariable] == b.userBase
      && SrcDirVariable in e && e[SrcDirVariable] == b.srcDir
      && forall k :: k != UserBaseVariable && k != SrcDirVariable ==>
           (k in e <==> k in env) && (k in env ==> e[k] == env[k])
  {
    FailureStopsTheBuild(req, h);
    var p := Plan(req, h);
    EnvironmentOfPrefix(req, h, env, |p|);
    assert p[..|p|] == p;
  }

  /** The environment after the first `n` steps of the plan: step 4 sets
      `PYTHONUSERBASE`, step 8 sets `srcDir`, and no other step writes. */
  function EnvAfterSteps(env: map<string, string>, b: Bindings, n: nat): (e: map<string, string>)
    ensures n <= 4 ==> e == env
    ensures n > 4 ==> UserBaseVariable in e && e[UserBaseVariable] == b.userBase
    ensures n > 8 ==> SrcDirVariable in e && e[SrcDirVariable] == b.srcDir
  {
    if n <= 4 then env
    else if n <= 8 then env[UserBaseVariable := b.userBase]
    else env[UserBaseVariable := b.userBase][SrcDirVariable := b.srcDir]
  }

  /** Whatever point `build` stops at, the environment is the one
      `EnvAfterSteps` gives for the number of steps taken. */
  lemma EnvironmentOfPrefix(req: Request, h: Host, env: map<string, string>, n: nat)
    requires n <= |Plan(req, h)|
    ensures ApplyEnv(env, Plan(req, h)[..n]) == EnvAfterSteps(env, Bind(req, h), n)
  {
    var b := Bind(req, h);
    PlanWrites(req, h);
    ApplyEnvAlong(env, Plan(req, h), b.userBase, b.srcDir, n);
  }

  /** Step 4 of the plan sets `PYTHONUSERBASE`, step 8 sets `srcDir`, and no
      other step writes to the environment. */
  lemma PlanWrites(req: Request, h: Host)
    ensures var p := Plan(req, h); var b := Bind(req, h);
      && p[4].call == SetUserBase(b.userBase) && p[8].call == SetSrcDir(b.srcDir)
      && forall i :: 0 <= i < |p| && i != 4 && i != 8 ==> !p[i].call.SetUserBase? && !p[i].call.SetSrcDir?
  {
    var b := Bind(req, h);
    var p, ins, later := Plan(req, h), Installs(req, h, b), Hooks(h, b) + Packaging(req, h, b);
    assert p == ins + later;
    LaterStepsWriteNothing(req, h, b);
    forall i | 10 <= i < |p|
      ensures !p[i].call.SetUserBase? && !p[i].call.SetSrcDir?
    {
      assert p[i] == later[i - 10];
    }
  }

  lemma {:induction false} ApplyEnvAlong(env: map<string, string>, p: seq<Step>, userBase: Path, srcDir: Path, n: nat)
    requires 10 <= |p| && n <= |p|
    requires p[4].call == SetUserBase(userBase) && p[8].call == SetSrcDir(srcDir)
    requires forall i :: 0 <= i < |p| && i != 4 && i != 8 ==> !p[i].call.SetUserBase? && !p[i].call.SetSrcDir?
    ensures ApplyEnv(env, p[..n]) ==
      if n <= 4 then env
      else if n <= 8 then env[UserBaseVariable := userBase]
      else env[UserBaseVariable := userBase][SrcDirVariable := srcDir]
    decreases n
  {
    if n == 0 {
      assert p[..n] == [];
    } else {
      ApplyEnvAlong(env, p, userBase, srcDir, n - 1);
      assert p[..n] == p[..n - 1] + [p[n - 1]];
      ApplyEnvSnoc(env, p[..n - 1], p[n - 1]);
    }
  }

  lemma LaterStepsWriteNothing(req: Request, h: Host, b: Bindings)
    ensures var later := Hooks(h, b) + Packaging(req, h, b);
      forall i :: 0 <= i < |later| ==> !later[i].call.SetUserBase? && !later[i].call.SetSrcDir?
  {
    HooksSegment(h, b);
    PackagingSegment(req, h, b);
    ConcatInStageOrder(Hooks(h, b), Packaging(req, h, b), 10, 13, 15);
  }

  // ---------------------------------------------------------------------
  // The parameter `files` (index.js:25-30, 58)

  const FilesNotDefined: Exception := Exception("files is not defined")

  /** The local names the parameter list of `build` binds for the request's
      files: `originalFiles` as written (index.js:26), `files` as the body
      expects. */
  function ParameterScope(req: Request, filesName: string): (scope: map<string, Files>)
    ensures scope.Keys == {filesName}
    ensures scope[filesName] == req.files
  {
    map[filesName := req.files]
  }

  /** Reading the identifier `files`, as index.js:30 and 58 do: a
      ReferenceError when nothing binds it. */
  function ReadFiles(scope: map<string, Files>): (r: Outcome<Files>)
    ensures r.Returned? <==> "files" in scope
    ensures r.Returned? ==> r.value == scope["files"]
  {
    if "files" in scope then Returned(scope["files"]) else Threw(FilesNotDefined)
  }

  /** `build` with the request's files bound under `filesName`: its first
      statement reads `files`, and only when that succeeds does the pipeline
      run, on the files it read. */
  function BoundBuild(req: Request, h: Host, filesName: string): (r: Run)
    ensures "files" !in ParameterScope(req, filesName) ==> r == Run([], Rejected(FilesNotDefined))
    ensures "files" in ParameterScope(req, filesName) ==> r.trace != [] && r.trace <= Plan(req, h)
  {
    match ReadFiles(ParameterScope(req, filesName))
    case Threw(e) => Run([], Rejected(e))
    case Returned(files) => Expected(req.(files := files), h)
  }

  /** As written, every build is rejected with a ReferenceError before it
      takes a single step. */
  lemma AsWrittenBuildAlwaysRejects(req: Request, h: Host)
    ensures BoundBuild(req, h, "originalFiles") == Run([], Rejected(FilesNotDefined))
  {
  }

  /** With the parameter named `files`, the build runs the pipeline on the
      request's files: the download gets them and the finders see what it
      returned. */
  lemma CorrectedBuildRunsPipeline(req: Request, h: Host)
    ensures BoundBuild(req, h, "files") == Expected(req, h)
  {
    assert req.(files := req.files) == req;
  }
}

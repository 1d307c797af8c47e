/** The values `build` derives from its request alone, before and after the
    install stages: the runtime it validates and puts in the Lambda, the WSGI
    module and application names, the glob options that collect the bundle,
    and the descriptor handed to `createLambda`. */
module BuildConfig {
  import opened Js

  /** The runtime used when the configuration names none. */
  const DefaultPythonVersion: string := "python3.9"
  /** The WSGI callable used when the configuration names none. */
  const DefaultApplicationName: string := "application"
  /** The glob ignore pattern used unless `excludeFiles` is a string. */
  const DefaultIgnore: string := "node_modules/**"
  /** The glob pattern the bundle is collected with: everything. */
  const GlobPattern: string := "**"
  /** The handler every Lambda gets: `vercel_handler` in the bundled `lambda` package. */
  const Handler: string := "lambda.vercel_handler"

  type Path = string

  /** A reference to one file of the project, as the platform hands it over. */
  datatype FileRef = FileRef(location: string)

  /** A file set: relative path to file. */
  type Files = map<Path, FileRef>

  /** The recognised entries of the build configuration. */
  datatype Config = Config(runtime: Value, wsgiApplicationName: Value, excludeFiles: Value)

  /** The options `glob` is called with. */
  datatype GlobOptions = GlobOptions(cwd: Path, ignore: string)

  /** The object literal handed to `createLambda`. */
  datatype LambdaSpec = LambdaSpec(files: Files, handler: string, runtime: string, environment: map<string, string>)

  /** `config.runtime || DEFAULT_PYTHON_VERSION`: the runtime `build` validates. */
  function Runtime(c: Config): (r: Value)
    ensures Truthy(r)
    ensures r == c.runtime || r == Str(DefaultPythonVersion)
    ensures Truthy(c.runtime) ==> r == c.runtime
  {
    Or(c.runtime, Str(DefaultPythonVersion))
  }

  /** `s.split('.').shift()`: the text before the first '.', or all of `s`
      when it has none. */
  function BeforeFirstDot(s: string): (r: string)
    ensures r <= s
    ensures '.' !in r
    ensures |r| < |s| ==> s[|r|] == '.'
  {
    if s == [] || s[0] == '.' then [] else [s[0]] + BeforeFirstDot(s[1..])
  }

  /** The three postconditions of `BeforeFirstDot` pin its result down. */
  lemma BeforeFirstDotIsUnique(s: string, p: string)
    requires p <= s
    requires '.' !in p
    requires |p| < |s| ==> s[|p|] == '.'
    ensures BeforeFirstDot(s) == p
  {
  }

  /** `s.replace(/\//g, '.')`: every '/' becomes '.', every other character
      is kept. */
  function SlashesToDots(s: string): (r: string)
    ensures |r| == |s|
    ensures forall i :: 0 <= i < |s| ==> r[i] == if s[i] == '/' then '.' else s[i]
  {
    if s == [] then [] else [if s[0] == '/' then '.' else s[0]] + SlashesToDots(s[1..])
  }

  /** The WSGI module named by the entrypoint (index.js:42): its directories
      become packages and its extension is dropped. The module's dots are
      exactly the entrypoint's slashes, and no '/' is left. */
  function WsgiModule(entrypoint: string): (r: string)
    ensures '/' !in r
    ensures |r| <= |entrypoint|
    ensures forall i :: 0 <= i < |r| ==> (r[i] == '.' <==> entrypoint[i] == '/')
    ensures forall i :: 0 <= i < |r| && entrypoint[i] != '/' ==> r[i] == entrypoint[i]
  {
    var stem := BeforeFirstDot(entrypoint);
    var r := SlashesToDots(stem);
    assert forall i :: 0 <= i < |r| ==> stem[i] == entrypoint[i] && stem[i] != '.';
    r
  }

  /** An entrypoint `stem.ext`, with no '.' in the stem, names the module
      `stem` with its slashes turned into dots; so does a bare `stem`. */
  lemma WsgiModuleOfPath(stem: string, ext: string)
    requires '.' !in stem
    ensures WsgiModule(stem + "." + ext) == SlashesToDots(stem)
    ensures WsgiModule(stem) == SlashesToDots(stem)
  {
    var s := stem + "." + ext;
    assert stem <= s && s[|stem|] == '.';
    BeforeFirstDotIsUnique(s, stem);
    BeforeFirstDotIsUnique(stem, stem);
  }

  /** The worked example: `api/app.py` names the module `api.app`. */
  lemma WsgiModuleOfApiApp()
    ensures WsgiModule("api/app.py") == "api.app"
  {
    assert BeforeFirstDot("api/app.py") == "api/app" by {
      BeforeFirstDotIsUnique("api/app.py", "api/app");
    }
    assert SlashesToDots("api/app") == "api.app";
  }

  /** `config.wsgiApplicationName || 'application'`, as the template literal
      on index.js:44 prints it. */
  function ApplicationName(c: Config): (r: string)
    ensures !Truthy(c.wsgiApplicationName) ==> r == DefaultApplicationName
    ensures IsString(c.wsgiApplicationName) && Truthy(c.wsgiApplicationName) ==> r == c.wsgiApplicationName.s
  {
    Template(Or(c.wsgiApplicationName, Str(DefaultApplicationName)))
  }

  /** `${wsgiMod}.${wsgiApplicationName}` (index.js:44): the module and the
      callable joined by a dot; when the callable has no dot of its own, the
      last dot separates the two again. */
  function WsgiApplication(entrypoint: string, c: Config): (r: string)
    ensures r == WsgiModule(entrypoint) + "." + ApplicationName(c)
    ensures '.' !in ApplicationName(c) ==>
      SplitAtLastDot(r) == Some((WsgiModule(entrypoint), ApplicationName(c)))
  {
    var m, n := WsgiModule(entrypoint), ApplicationName(c);
    if '.' in n then m + "." + n
    else SplitAtLastDotJoin(m, n); m + "." + n
  }

  /** Splits a dotted name at its last '.', the inverse of the join at
      index.js:44; `None` when there is no '.'. */
  function SplitAtLastDot(s: string): (r: Option<(string, string)>)
    ensures r.None? ==> '.' !in s
    ensures r.Some? ==> s == r.value.0 + "." + r.value.1 && '.' !in r.value.1
  {
    if s == [] then None
    else if s[|s| - 1] == '.' then Some((s[..|s| - 1], ""))
    else match SplitAtLastDot(s[..|s| - 1])
      case None => None
      case Some(parts) => Some((parts.0, parts.1 + [s[|s| - 1]]))
  }

  /** Splitting `m.n` at its last dot gives back `m` and `n` when `n` has no
      dot. */
  lemma {:induction false} SplitAtLastDotJoin(m: string, n: string)
    requires '.' !in n
    ensures SplitAtLastDot(m + "." + n) == Some((m, n))
    decreases |n|
  {
    var s := m + "." + n;
    if n == [] {
      assert s[..|s| - 1] == m;
    } else {
      var n' := n[..|n| - 1];
      assert s[..|s| - 1] == m + "." + n';
      assert s[|s| - 1] == n[|n| - 1] != '.';
      SplitAtLastDotJoin(m, n');
      assert n' + [n[|n| - 1]] == n;
    }
  }

  /** The glob ignore pattern (index.js:100-103): `excludeFiles` exactly when
      it is a string, even the empty one, and the default pattern otherwise. */
  function Ignore(c: Config): (r: string)
    ensures IsString(c.excludeFiles) ==> r == c.excludeFiles.s
    ensures !IsString(c.excludeFiles) ==> r == DefaultIgnore
  {
    if IsString(c.excludeFiles) then c.excludeFiles.s else DefaultIgnore
  }

  /** The ignore test is on the type, not on truthiness: an empty
      `excludeFiles` ignores nothing, where an empty `runtime` falls back to
      the default, and a truthy non-string `excludeFiles` is not used. */
  lemma IgnoreTestsTypeNotTruthiness(c: Config, text: string)
    ensures c.excludeFiles == Str("") ==> Ignore(c) == ""
    ensures c.runtime == Str("") ==> Runtime(c) == Str(DefaultPythonVersion)
    ensures c.excludeFiles == Other(true, text) ==> Ignore(c) == DefaultIgnore
  {
  }

  /** The options of the glob that collects the bundle (index.js:98-104). */
  function BundleGlobOptions(workPath: Path, c: Config): (o: GlobOptions)
    ensures o.cwd == workPath
    ensures o.ignore == Ignore(c)
  {
    GlobOptions(workPath, Ignore(c))
  }

  /** The descriptor handed to `createLambda` (index.js:106-111). */
  function Descriptor(files: Files, c: Config): (d: LambdaSpec)
    ensures d.files == files
    ensures d.handler == Handler
    ensures d.environment == map[]
    ensures d.runtime == Template(Runtime(c))
  {
    LambdaSpec(files, Handler, Template(Runtime(c)), map[])
  }

  /** The descriptor's runtime is the validated runtime as text: the
      configured one when it is a non-empty string, `python3.9` when it is
      missing or falsy. */
  lemma DescriptorRuntime(files: Files, c: Config)
    ensures IsString(c.runtime) && Truthy(c.runtime) ==> Descriptor(files, c).runtime == c.runtime.s
    ensures !Truthy(c.runtime) ==> Descriptor(files, c).runtime == DefaultPythonVersion
  {
  }

  /** The WSGI application computed from the configuration does not reach
      the descriptor: changing `wsgiApplicationName` changes nothing in it. */
  lemma DescriptorIgnoresWsgiApplication(files: Files, c: Config, name: Value)
    ensures Descriptor(files, c.(wsgiApplicationName := name)) == Descriptor(files, c)
    ensures Descriptor(files, c).environment == map[]
  {
  }
}

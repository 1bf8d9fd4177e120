/**
 * Locating the native MySQL client library: the four discovery strategies,
 * the first-success chain that tries them, and the `cargo:` link directives
 * emitted for the winner. Both build scripts of the repository share this
 * logic; they differ only in how the explicit strategies set `needs_link`
 * and in which libraries they name (see BindingHelpers and LegacyBuild).
 *
 * Everything the scripts read from outside — environment variables, the
 * `pkg-config` and `vcpkg` probes, the `mysql_config` executable and the
 * platform the build script is compiled for — is a parameter here.
 */
module Discovery {
  import opened Wrappers
  import Text

  /**
   * The platform the build script itself is compiled for, as far as its `cfg!`
   * and `#[cfg]` tests distinguish it.
   */
  datatype Platform = WindowsGnu | WindowsMsvc | Other

  const LibDirVar: string := "MYSQLCLIENT_LIB_DIR"
  const IncludeDirVar: string := "MYSQLCLIENT_INCLUDE_DIR"
  const PkgLibDir: string := "pkglibdir"
  const PkgIncludeDir: string := "pkgincludedir"

  /** What a finished child process wrote to stdout: text, or bytes that are not UTF-8. */
  datatype Stdout = Utf8(text: string) | NotUtf8

  datatype ProcessOutput = ProcessOutput(success: bool, stdout: Stdout)

  /** Link and include directories reported by a package probe. */
  datatype Probe = Probe(linkPaths: seq<string>, includePaths: seq<string>)

  /**
   * The build host as the scripts observe it.
   *  - env: the environment variables whose values are valid Unicode (others read as unset);
   *  - pkgConfig: the `mysqlclient` package as `pkg-config` reports it, if it does;
   *  - vcpkg: the `libmysql` package as `vcpkg` reports it, if it does;
   *  - mysqlConfig: running `mysql_config` with one argument; `None` when it cannot be spawned.
   */
  datatype Host = Host(
    env: map<string, string>,
    pkgConfig: Option<Probe>,
    vcpkg: Option<Probe>,
    mysqlConfig: string -> Option<ProcessOutput>)

  datatype Strategy = EnvVars | PkgConfig | Vcpkg | MysqlConfig

  /** The winning strategy's paths and whether the script itself must emit link directives. */
  datatype Found = Found(strategy: Strategy, linkPaths: seq<string>, includePaths: seq<string>, needsLink: bool)

  /** A strategy that leaves linking to the probe crate that found the library. */
  predicate SelfLinking(s: Strategy)
  {
    s == PkgConfig || s == Vcpkg
  }

  function EnvVar(h: Host, name: string): Option<string>
  {
    if name in h.env then Some(h.env[name]) else None
  }

  predicate HasEnvPair(h: Host)
  {
    LibDirVar in h.env && IncludeDirVar in h.env
  }

  /** The single argument `mysql_config` is run with to print one variable. */
  function VariableArg(varName: string): (arg: string)
    ensures |arg| == 11 + |varName| && arg[..11] == "--variable=" && arg[11..] == varName
  {
    "--variable=" + varName
  }

  /**
   * `mysql_config_variable`: the trimmed stdout of `mysql_config --variable=<name>`.
   * A spawn failure, a non-zero exit and non-UTF-8 output all read as `None`;
   * an output that trims to the empty string is still `Some("")`.
   */
  function MysqlConfigVariable(tool: string -> Option<ProcessOutput>, varName: string): (r: Option<string>)
    ensures r.Some? <==>
      && tool(VariableArg(varName)).Some?
      && tool(VariableArg(varName)).value.success
      && tool(VariableArg(varName)).value.stdout.Utf8?
    ensures r.Some? ==>
      && Text.IsTrimmed(r.value)
      && exists lead: nat :: Text.Framed(tool(VariableArg(varName)).value.stdout.text, lead, r.value)
  {
    match tool(VariableArg(varName))
    case Some(ProcessOutput(true, Utf8(text))) => Some(Text.Trim(text))
    case _ => None
  }

  /** Strategy 1: both directory variables set. */
  function TryEnv(h: Host, explicitLink: bool): Option<Found>
  {
    match (EnvVar(h, LibDirVar), EnvVar(h, IncludeDirVar))
    case (Some(lib), Some(inc)) => Some(Found(EnvVars, [lib], [inc], explicitLink))
    case _ => None
  }

  /** Strategy 2: `pkg-config`, which configures linking itself. */
  function TryPkgConfig(h: Host): Option<Found>
  {
    match h.pkgConfig
    case Some(p) => Some(Found(PkgConfig, p.linkPaths, p.includePaths, false))
    case None => None
  }

  /** Strategy 3: `vcpkg`, compiled in only on MSVC; elsewhere it always fails. */
  function TryVcpkg(h: Host, platform: Platform): (r: Option<Found>)
    ensures r.Some? <==> platform == WindowsMsvc && h.vcpkg.Some?
    ensures r.Some? ==> r.value.strategy == Vcpkg && !r.value.needsLink
    ensures r.Some? ==> r.value.linkPaths == h.vcpkg.value.linkPaths && r.value.includePaths == h.vcpkg.value.includePaths
  {
    if platform != WindowsMsvc then None
    else match h.vcpkg
      case Some(p) => Some(Found(Vcpkg, p.linkPaths, p.includePaths, false))
      case None => None
  }

  /** Strategy 4: both `mysql_config` lookups answer. */
  function TryMysqlConfig(h: Host, explicitLink: bool): Option<Found>
  {
    match (MysqlConfigVariable(h.mysqlConfig, PkgLibDir), MysqlConfigVariable(h.mysqlConfig, PkgIncludeDir))
    case (Some(lib), Some(inc)) => Some(Found(MysqlConfig, [lib], [inc], explicitLink))
    case _ => None
  }

  /**
   * The `if let … else if let …` chain of both scripts: the first strategy that
   * succeeds wins, nothing is merged. `explicitLink` is the `needs_link` value the
   * two explicit strategies (environment, `mysql_config`) report.
   */
  function Select(h: Host, platform: Platform, explicitLink: bool): (r: Option<Found>)
    ensures HasEnvPair(h) ==> r == Some(Found(EnvVars, [h.env[LibDirVar]], [h.env[IncludeDirVar]], explicitLink))
    ensures r.Some? && r.value.strategy == EnvVars <==> HasEnvPair(h)
    ensures r.Some? && SelfLinking(r.value.strategy) ==> !r.value.needsLink
    ensures r.Some? && !SelfLinking(r.value.strategy) ==>
      r.value.needsLink == explicitLink && |r.value.linkPaths| == 1 && |r.value.includePaths| == 1
    ensures r.Some? && r.value.strategy == Vcpkg ==> platform == WindowsMsvc
    ensures r.Some? && r.value.strategy == MysqlConfig ==>
      && MysqlConfigVariable(h.mysqlConfig, PkgLibDir).Some?
      && MysqlConfigVariable(h.mysqlConfig, PkgIncludeDir).Some?
      && r.value.linkPaths == [MysqlConfigVariable(h.mysqlConfig, PkgLibDir).value]
      && r.value.includePaths == [MysqlConfigVariable(h.mysqlConfig, PkgIncludeDir).value]
    ensures r.None? <==>
      && !HasEnvPair(h)
      && h.pkgConfig.None?
      && (platform != WindowsMsvc || h.vcpkg.None?)
      && (MysqlConfigVariable(h.mysqlConfig, PkgLibDir).None? || MysqlConfigVariable(h.mysqlConfig, PkgIncludeDir).None?)
  {
    var env := TryEnv(h, explicitLink);
    if env.Some? then env
    else
      var pkg := TryPkgConfig(h);
      if pkg.Some? then pkg
      else
        var vcpkg := TryVcpkg(h, platform);
        if vcpkg.Some? then vcpkg
        else TryMysqlConfig(h, explicitLink)
  }

  /** The reference reading of strategy order: the first attempt that produced something. */
  function FirstSuccess<T>(attempts: seq<Option<T>>): (r: Option<T>)
    ensures r.None? <==> forall k :: 0 <= k < |attempts| ==> attempts[k].None?
    ensures r.Some? ==> exists k :: 0 <= k < |attempts| && attempts[k] == r && forall j :: 0 <= j < k ==> attempts[j].None?
  {
    if attempts == [] then None
    else if attempts[0].Some? then attempts[0]
    else
      var r := FirstSuccess(attempts[1..]);
      assert forall k :: 1 <= k < |attempts| ==> attempts[k] == attempts[1..][k - 1];
      r
  }

  /** The strategies in priority order. */
  function Attempts(h: Host, platform: Platform, explicitLink: bool): seq<Option<Found>>
  {
    [TryEnv(h, explicitLink), TryPkgConfig(h), TryVcpkg(h, platform), TryMysqlConfig(h, explicitLink)]
  }

  /** The `else if` chain is exactly "first success over the ordered strategy list". */
  lemma SelectIsFirstSuccess(h: Host, platform: Platform, explicitLink: bool)
    ensures Select(h, platform, explicitLink) == FirstSuccess(Attempts(h, platform, explicitLink))
  {
    var a := Attempts(h, platform, explicitLink);
    var a1, a2, a3 := a[1..], a[2..], a[3..];
    assert a1[1..] == a2 && a2[1..] == a3 && a3[1..] == [];
    assert FirstSuccess(a3) == a[3] by { assert FirstSuccess(a3[1..]) == None; }
    assert FirstSuccess(a2) == if a[2].Some? then a[2] else FirstSuccess(a3);
    assert FirstSuccess(a1) == if a[1].Some? then a[1] else FirstSuccess(a2);
  }

  /** How a `rustc-link-lib` directive asks for the library. */
  datatype LinkKind = Unspecified | Dylib | Static

  /** One `cargo:` line printed to the build orchestrator. */
  datatype Directive = LinkSearchNative(path: string) | LinkLib(kind: LinkKind, name: string)

  /** The printed text of a directive. */
  function Render(d: Directive): (line: string)
  {
    match d
    case LinkSearchNative(path) => "cargo:rustc-link-search=native=" + path
    case LinkLib(Unspecified, name) => "cargo:rustc-link-lib=" + name
    case LinkLib(Dylib, name) => "cargo:rustc-link-lib=dylib=" + name
    case LinkLib(Static, name) => "cargo:rustc-link-lib=static=" + name
  }

  /** The printed lines of a list of directives, in order. */
  function RenderAll(ds: seq<Directive>): (lines: seq<string>)
    ensures |lines| == |ds|
    ensures forall k :: 0 <= k < |ds| ==> lines[k] == Render(ds[k])
  {
    if ds == [] then [] else [Render(ds[0])] + RenderAll(ds[1..])
  }

  /** One `rustc-link-search=native=` directive per link path, in order. */
  function SearchDirectives(paths: seq<string>): (ds: seq<Directive>)
    ensures |ds| == |paths|
    ensures forall k :: 0 <= k < |ds| ==> ds[k] == LinkSearchNative(paths[k])
    ensures |paths| == 1 ==> ds == [LinkSearchNative(paths[0])]
  {
    if paths == [] then []
    else [LinkSearchNative(paths[0])] + SearchDirectives(paths[1..])
  }

  /**
   * The printed search lines: one `cargo:rustc-link-search=native=` line per
   * link path, in order, from which the path reads back unchanged.
   */
  lemma SearchLines(paths: seq<string>)
    ensures |RenderAll(SearchDirectives(paths))| == |paths|
    ensures forall k :: 0 <= k < |paths| ==>
      RenderAll(SearchDirectives(paths))[k] == "cargo:rustc-link-search=native=" + paths[k]
    ensures forall k :: 0 <= k < |paths| ==>
      RenderAll(SearchDirectives(paths))[k][|"cargo:rustc-link-search=native="|..] == paths[k]
  {
  }

  /** The search paths named by the leading search directives of `ds`. */
  function SearchPathsOf(ds: seq<Directive>): seq<string>
  {
    if ds == [] || !ds[0].LinkSearchNative? then []
    else [ds[0].path] + SearchPathsOf(ds[1..])
  }

  /** The directives after the leading search directives. */
  function LibrariesOf(ds: seq<Directive>): seq<Directive>
  {
    if ds == [] || !ds[0].LinkSearchNative? then ds
    else LibrariesOf(ds[1..])
  }

  /** Search paths and the library list can be read back from the emitted directives. */
  lemma {:induction false} DirectivesRoundTrip(paths: seq<string>, libs: seq<Directive>)
    requires libs == [] || !libs[0].LinkSearchNative?
    ensures SearchPathsOf(SearchDirectives(paths) + libs) == paths
    ensures LibrariesOf(SearchDirectives(paths) + libs) == libs
  {
    if paths != [] {
      var ds := SearchDirectives(paths) + libs;
      assert ds[1..] == SearchDirectives(paths[1..]) + libs;
      DirectivesRoundTrip(paths[1..], libs);
    } else {
      assert SearchDirectives(paths) + libs == libs;
    }
  }

  /** The paths a discovery returns and the directives it printed. */
  datatype Discovered = Discovered(linkPaths: seq<string>, includePaths: seq<string>, directives: seq<Directive>)

  /** The `panic!` when no strategy finds the library. */
  datatype DiscoveryError = LibraryNotFound

  /** The directives printed for a winner: none unless it needs linking. */
  function LinkOutput(f: Found, libraries: seq<Directive>): (ds: seq<Directive>)
    requires libraries == [] || !libraries[0].LinkSearchNative?
    ensures !f.needsLink ==> ds == []
    ensures f.needsLink ==> SearchPathsOf(ds) == f.linkPaths && LibrariesOf(ds) == libraries
    ensures f.needsLink ==> |ds| == |f.linkPaths| + |libraries|
  {
    if f.needsLink then
      DirectivesRoundTrip(f.linkPaths, libraries);
      SearchDirectives(f.linkPaths) + libraries
    else []
  }

  /** Discovery followed by link-directive emission, shared by both scripts. */
  function Resolve(h: Host, platform: Platform, explicitLink: bool, libraries: seq<Directive>): Result<Discovered, DiscoveryError>
    requires libraries == [] || !libraries[0].LinkSearchNative?
  {
    match Select(h, platform, explicitLink)
    case None => Err(LibraryNotFound)
    case Some(f) => Ok(Discovered(f.linkPaths, f.includePaths, LinkOutput(f, libraries)))
  }

  /**
   * Discovery in terms of the reference reading of strategy order: it fails
   * exactly when every strategy fails, and otherwise reports the first
   * winner's paths, printing nothing unless that winner needs linking and
   * otherwise its link paths followed by the given libraries.
   */
  lemma ResolveIsFirstSuccess(h: Host, platform: Platform, explicitLink: bool, libraries: seq<Directive>)
    requires libraries == [] || !libraries[0].LinkSearchNative?
    ensures
      var r := Resolve(h, platform, explicitLink, libraries);
      var attempts := Attempts(h, platform, explicitLink);
      && (r.Err? <==> forall k :: 0 <= k < |attempts| ==> attempts[k].None?)
      && (r.Ok? ==>
            exists k :: 0 <= k < |attempts| && attempts[k].Some?
              && (forall j :: 0 <= j < k ==> attempts[j].None?)
              && r.value.linkPaths == attempts[k].value.linkPaths
              && r.value.includePaths == attempts[k].value.includePaths
              && (!attempts[k].value.needsLink ==> r.value.directives == [])
              && (attempts[k].value.needsLink ==>
                    && SearchPathsOf(r.value.directives) == attempts[k].value.linkPaths
                    && LibrariesOf(r.value.directives) == libraries))
  {
    SelectIsFirstSuccess(h, platform, explicitLink);
  }

  /** Naming extra libraries only appends them to whatever directives were printed. */
  lemma ResolveExtraLibraries(h: Host, platform: Platform, explicitLink: bool, libs: seq<Directive>, extra: seq<Directive>)
    requires libs != [] && !libs[0].LinkSearchNative?
    ensures
      var a := Resolve(h, platform, explicitLink, libs);
      var b := Resolve(h, platform, explicitLink, libs + extra);
      && a.Ok? == b.Ok?
      && (a.Ok? ==>
            && b.value.linkPaths == a.value.linkPaths
            && b.value.includePaths == a.value.includePaths
            && b.value.directives == if a.value.directives == [] then [] else a.value.directives + extra)
  {
    var f := Select(h, platform, explicitLink);
    if f.Some? && f.value.needsLink {
      var search := SearchDirectives(f.value.linkPaths);
      assert (libs + extra)[0] == libs[0];
      assert search + (libs + extra) == (search + libs) + extra;
    }
  }
}

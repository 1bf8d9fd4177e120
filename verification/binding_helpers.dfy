/**
 * The `binding-helpers` crate: `probe_libs`, which finds the client library and
 * prints link directives when asked to, and `bindings_builder`, which prepares
 * the bindgen builder every binding crate of the repository uses.
 */
module BindingHelpers {
  import opened Wrappers
  import opened Discovery
  import opened Bindgen

  /** The libraries `probe_libs` links, by build platform. */
  function HelperLibraries(platform: Platform): (libs: seq<Directive>)
    ensures libs != [] && forall k :: 0 <= k < |libs| ==> libs[k].LinkLib?
  {
    match platform
    case WindowsGnu => [LinkLib(Dylib, "mysql")]
    case WindowsMsvc => [LinkLib(Static, "mysqlclient")]
    case Other => [LinkLib(Unspecified, "mysqlclient"), LinkLib(Unspecified, "ssl"), LinkLib(Unspecified, "crypto")]
  }

  /** The exact `cargo:` lines for the libraries, by build platform. */
  lemma HelperLibraryLines(platform: Platform)
    ensures platform == WindowsGnu ==> RenderAll(HelperLibraries(platform)) == ["cargo:rustc-link-lib=dylib=mysql"]
    ensures platform == WindowsMsvc ==> RenderAll(HelperLibraries(platform)) == ["cargo:rustc-link-lib=static=mysqlclient"]
    ensures platform == Other ==>
      RenderAll(HelperLibraries(platform)) ==
        ["cargo:rustc-link-lib=mysqlclient", "cargo:rustc-link-lib=ssl", "cargo:rustc-link-lib=crypto"]
  {
    match platform
    case WindowsGnu => GnuLines();
    case WindowsMsvc => MsvcLines();
    case Other => OtherLines();
  }

  /** The library lines printed on windows-gnu. */
  lemma GnuLines()
    ensures RenderAll(HelperLibraries(WindowsGnu)) == ["cargo:rustc-link-lib=dylib=mysql"]
  {
    var lines := RenderAll(HelperLibraries(WindowsGnu));
    assert lines[0] == "cargo:rustc-link-lib=dylib=mysql" by {
      assert lines[0] == "cargo:rustc-link-lib=dylib=" + "mysql";
    }
    assert lines == [lines[0]];
  }

  /** The library lines printed on windows-msvc. */
  lemma MsvcLines()
    ensures RenderAll(HelperLibraries(WindowsMsvc)) == ["cargo:rustc-link-lib=static=mysqlclient"]
  {
    var lines := RenderAll(HelperLibraries(WindowsMsvc));
    assert lines[0] == "cargo:rustc-link-lib=static=mysqlclient" by {
      assert lines[0] == "cargo:rustc-link-lib=static=" + "mysqlclient";
    }
    assert lines == [lines[0]];
  }

  /** The library lines printed on every other platform. */
  lemma OtherLines()
    ensures RenderAll(HelperLibraries(Other)) ==
      ["cargo:rustc-link-lib=mysqlclient", "cargo:rustc-link-lib=ssl", "cargo:rustc-link-lib=crypto"]
  {
    var lines := RenderAll(HelperLibraries(Other));
    assert lines[0] == "cargo:rustc-link-lib=mysqlclient" by {
      assert lines[0] == "cargo:rustc-link-lib=" + "mysqlclient";
    }
    assert lines[1] == "cargo:rustc-link-lib=ssl" by {
      assert lines[1] == "cargo:rustc-link-lib=" + "ssl";
    }
    assert lines[2] == "cargo:rustc-link-lib=crypto" by {
      assert lines[2] == "cargo:rustc-link-lib=" + "crypto";
    }
    assert lines == [lines[0], lines[1], lines[2]];
  }

  /**
   * `probe_libs(should_link)`: the environment and `mysql_config` strategies
   * report `needs_link = should_link`, the probe crates report `false`.
   */
  function ProbeLibs(h: Host, platform: Platform, shouldLink: bool): (r: Result<Discovered, DiscoveryError>)
    // the environment pair wins whatever the later strategies would say
    ensures HasEnvPair(h) ==>
      && r.Ok?
      && r.value.linkPaths == [h.env[LibDirVar]]
      && r.value.includePaths == [h.env[IncludeDirVar]]
      && (r.value.directives != [] <==> shouldLink)
    // the probe crates never make the script print link directives
    ensures !HasEnvPair(h) && h.pkgConfig.Some? ==>
      r == Ok(Discovered(h.pkgConfig.value.linkPaths, h.pkgConfig.value.includePaths, []))
    ensures !HasEnvPair(h) && h.pkgConfig.None? && platform == WindowsMsvc && h.vcpkg.Some? ==>
      r == Ok(Discovered(h.vcpkg.value.linkPaths, h.vcpkg.value.includePaths, []))
    // mysql_config is the last resort and needs both lookups
    ensures !HasEnvPair(h) && h.pkgConfig.None? && (platform != WindowsMsvc || h.vcpkg.None?) ==>
      && (r.Ok? <==> MysqlConfigVariable(h.mysqlConfig, PkgLibDir).Some? && MysqlConfigVariable(h.mysqlConfig, PkgIncludeDir).Some?)
      && (r.Ok? ==>
            && r.value.linkPaths == [MysqlConfigVariable(h.mysqlConfig, PkgLibDir).value]
            && r.value.includePaths == [MysqlConfigVariable(h.mysqlConfig, PkgIncludeDir).value]
            && (r.value.directives != [] <==> shouldLink))
    // no directives at all unless asked to link
    ensures r.Ok? && !shouldLink ==> r.value.directives == []
    // when printed, the search paths come first, then the platform's libraries
    ensures r.Ok? && r.value.directives != [] ==>
      && SearchPathsOf(r.value.directives) == r.value.linkPaths
      && LibrariesOf(r.value.directives) == HelperLibraries(platform)
  {
    Resolve(h, platform, shouldLink, HelperLibraries(platform))
  }

  /** Exhausting every strategy is the panic, and the panic happens only then. */
  lemma ProbeLibsPanics(h: Host, platform: Platform, shouldLink: bool)
    ensures ProbeLibs(h, platform, shouldLink).Err? <==>
      && !HasEnvPair(h)
      && h.pkgConfig.None?
      && (platform != WindowsMsvc || h.vcpkg.None?)
      && (MysqlConfigVariable(h.mysqlConfig, PkgLibDir).None? || MysqlConfigVariable(h.mysqlConfig, PkgIncludeDir).None?)
  {
  }

  /** With the environment pair set, nothing but the environment is consulted. */
  lemma EnvPairOverrides(h: Host, h': Host, platform: Platform, shouldLink: bool)
    requires HasEnvPair(h) && h'.env == h.env
    ensures ProbeLibs(h, platform, shouldLink) == ProbeLibs(h', platform, shouldLink)
  {
  }

  /** Only one of the two directory variables set is the same as neither set. */
  lemma HalfEnvFallsThrough(h: Host, platform: Platform, shouldLink: bool)
    requires (LibDirVar in h.env) != (IncludeDirVar in h.env)
    ensures ProbeLibs(h, platform, shouldLink) == ProbeLibs(h.(env := h.env - {LibDirVar, IncludeDirVar}), platform, shouldLink)
  {
  }

  /**
   * `bindings_builder(include_paths, emit)`. `wrapperPath` is the canonical path of
   * `wrapper.h` the script computes from `CARGO_MANIFEST_DIR`; `printed` holds the
   * lines it writes to stdout.
   */
  method BindingsBuilder(wrapperPath: string, includePaths: seq<string>, emit: bool) returns (b: Builder, printed: seq<string>)
    ensures b.headers == [wrapperPath]
    ensures b.blocklistedTypes == ["my_bool"]
    ensures b.enumStyle == RustEnum(false) && b.aliasStyle == TypeAlias
    ensures |b.clangArgs| == |includePaths|
    ensures forall k :: 0 <= k < |includePaths| ==> b.clangArgs[k] == IncludeArg(includePaths[k])
    ensures IncludePathsOf(b.clangArgs) == Some(includePaths)
    ensures b.parseCallbacks == if emit then [CargoCallbacks] else []
    ensures printed == if emit then ["cargo:rerun-if-changed=" + wrapperPath] else []
  {
    printed := if emit then ["cargo:rerun-if-changed=" + wrapperPath] else [];
    b := DefaultBuilder.(
      headers := [wrapperPath],
      blocklistedTypes := ["my_bool"],
      enumStyle := RustEnum(false),
      aliasStyle := TypeAlias);
    b := AddIncludeArgs(b, includePaths);
    assert b.clangArgs[0..] == b.clangArgs;
    if emit {
      b := b.(parseCallbacks := b.parseCallbacks + [CargoCallbacks]);
    }
  }
}

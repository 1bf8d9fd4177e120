/**
 * The repository-root `build.rs`, the older single-crate variant of the same
 * pipeline: `link_libs` always links when an explicit strategy wins and names
 * only `mysqlclient` on non-Windows platforms; `build_bindings` uses the wrapper
 * header in place and always registers the cargo callbacks.
 */
module LegacyBuild {
  import opened Wrappers
  import opened Discovery
  import opened Bindgen
  import BindingHelpers

  /** The libraries `link_libs` links, by build platform. */
  function LegacyLibraries(platform: Platform): (libs: seq<Directive>)
    ensures |libs| == 1 && libs[0].LinkLib?
  {
    match platform
    case WindowsGnu => [LinkLib(Dylib, "mysql")]
    case WindowsMsvc => [LinkLib(Static, "mysqlclient")]
    case Other => [LinkLib(Unspecified, "mysqlclient")]
  }

  /** The exact `cargo:` lines for the libraries, by build platform. */
  lemma LegacyLibraryLines(platform: Platform)
    ensures platform == WindowsGnu ==> RenderAll(LegacyLibraries(platform)) == ["cargo:rustc-link-lib=dylib=mysql"]
    ensures platform == WindowsMsvc ==> RenderAll(LegacyLibraries(platform)) == ["cargo:rustc-link-lib=static=mysqlclient"]
    ensures platform == Other ==> RenderAll(LegacyLibraries(platform)) == ["cargo:rustc-link-lib=mysqlclient"]
  {
    var lines := RenderAll(LegacyLibraries(platform));
    match platform
    case WindowsGnu =>
      assert lines[0] == "cargo:rustc-link-lib=dylib=mysql" by {
        assert lines[0] == "cargo:rustc-link-lib=dylib=" + "mysql";
      }
      assert lines == [lines[0]];
    case WindowsMsvc =>
      assert lines[0] == "cargo:rustc-link-lib=static=mysqlclient" by {
        assert lines[0] == "cargo:rustc-link-lib=static=" + "mysqlclient";
      }
      assert lines == [lines[0]];
    case Other =>
      assert lines[0] == "cargo:rustc-link-lib=mysqlclient" by {
        assert lines[0] == "cargo:rustc-link-lib=" + "mysqlclient";
      }
      assert lines == [lines[0]];
  }

  /** `link_libs()`: discovery with `needs_link = true` for the explicit strategies. */
  function LinkLibs(h: Host, platform: Platform): (r: Result<Discovered, DiscoveryError>)
    ensures HasEnvPair(h) ==>
      r == Ok(Discovered([h.env[LibDirVar]], [h.env[IncludeDirVar]],
                         [LinkSearchNative(h.env[LibDirVar])] + LegacyLibraries(platform)))
    ensures !HasEnvPair(h) && h.pkgConfig.Some? ==>
      r == Ok(Discovered(h.pkgConfig.value.linkPaths, h.pkgConfig.value.includePaths, []))
    ensures !HasEnvPair(h) && h.pkgConfig.None? && platform == WindowsMsvc && h.vcpkg.Some? ==>
      r == Ok(Discovered(h.vcpkg.value.linkPaths, h.vcpkg.value.includePaths, []))
    ensures !HasEnvPair(h) && h.pkgConfig.None? && (platform != WindowsMsvc || h.vcpkg.None?) ==>
      && (r.Ok? <==> MysqlConfigVariable(h.mysqlConfig, PkgLibDir).Some? && MysqlConfigVariable(h.mysqlConfig, PkgIncludeDir).Some?)
      && (r.Ok? ==>
            var lib := MysqlConfigVariable(h.mysqlConfig, PkgLibDir).value;
            r.value == Discovered([lib], [MysqlConfigVariable(h.mysqlConfig, PkgIncludeDir).value],
                                  [LinkSearchNative(lib)] + LegacyLibraries(platform)))
    ensures r.Err? <==>
      && !HasEnvPair(h)
      && h.pkgConfig.None?
      && (platform != WindowsMsvc || h.vcpkg.None?)
      && (MysqlConfigVariable(h.mysqlConfig, PkgLibDir).None? || MysqlConfigVariable(h.mysqlConfig, PkgIncludeDir).None?)
  {
    Resolve(h, platform, true, LegacyLibraries(platform))
  }

  /**
   * The two variants find the same paths; `probe_libs(true)` prints the same
   * directives except that on non-Windows platforms it adds `ssl` and `crypto`.
   */
  lemma VariantsAgree(h: Host, platform: Platform)
    ensures LinkLibs(h, platform).Ok? == BindingHelpers.ProbeLibs(h, platform, true).Ok?
    ensures LinkLibs(h, platform).Ok? ==>
      var legacy := LinkLibs(h, platform).value;
      var helper := BindingHelpers.ProbeLibs(h, platform, true).value;
      && legacy.linkPaths == helper.linkPaths
      && legacy.includePaths == helper.includePaths
      && helper.directives == (if platform == Other && legacy.directives != []
                               then legacy.directives + [LinkLib(Unspecified, "ssl"), LinkLib(Unspecified, "crypto")]
                               else legacy.directives)
  {
    var extra := if platform == Other then [LinkLib(Unspecified, "ssl"), LinkLib(Unspecified, "crypto")] else [];
    assert BindingHelpers.HelperLibraries(platform) == LegacyLibraries(platform) + extra;
    ResolveExtraLibraries(h, platform, true, LegacyLibraries(platform), extra);
  }

  /** `build_bindings(include_paths)`, up to generation. */
  method BuildBindings(includePaths: seq<string>) returns (b: Builder)
    ensures b.headers == ["wrapper.h"]
    ensures b.blocklistedTypes == []
    ensures b.enumStyle == RustEnum(false) && b.aliasStyle == TypeAlias
    ensures |b.clangArgs| == |includePaths|
    ensures forall k :: 0 <= k < |includePaths| ==> b.clangArgs[k] == IncludeArg(includePaths[k])
    ensures IncludePathsOf(b.clangArgs) == Some(includePaths)
    ensures b.parseCallbacks == [CargoCallbacks]
  {
    b := DefaultBuilder.(headers := ["wrapper.h"], enumStyle := RustEnum(false), aliasStyle := TypeAlias);
    b := AddIncludeArgs(b, includePaths);
    assert b.clangArgs[0..] == b.clangArgs;
    b := b.(parseCallbacks := b.parseCallbacks + [CargoCallbacks]);
  }
}

# mysqlclient-sys build glue, modelled in Dafny

The repository builds Rust bindings to the MySQL C client library. Its decision
logic lives in three build scripts and one procedural macro:

- **Library discovery and linking** (`probe_libs` in `binding-helpers`, and its
  older twin `link_libs` in the root `build.rs`). Four strategies are tried in a
  fixed order and the first success wins: the `MYSQLCLIENT_LIB_DIR` /
  `MYSQLCLIENT_INCLUDE_DIR` environment pair, `pkg-config`, `vcpkg` (only when
  the build script is compiled for MSVC), then
  `mysql_config --variable=pkglibdir|pkgincludedir`. If none succeeds the build
  panics. When the winner needs explicit linking, the script
  prints `cargo:rustc-link-search=native=<path>` lines followed by
  `cargo:rustc-link-lib=` lines that depend on the build script's platform.
- **bindgen builder shaping** (`bindings_builder`, `build_bindings`). Each include
  directory becomes one `-I<path>` clang argument, in order.
- **Version capture** (`mysqlclient-macros/build.rs`). A parse callback keeps the
  last string value of `MYSQL_SERVER_VERSION`. `main` splits that value on `-`
  into a version and a vendor: MariaDB when there is a `-`, MySQL otherwise.
- **The `#[mysqlclient_version("req")]` gate** (`mysqlclient-macros/src/lib.rs`).
  The gate checks the shape of the attribute's first token and strips that
  literal's first and last byte. It then keeps the item when the semver
  requirement matches the client version, and returns an empty token stream
  otherwise.

Modules: `Wrappers` (Option/Result), `Text` (`str::trim`, `split`),
`Discovery` (the strategies, the first-success chain, `mysql_config_variable`
and the directives, shared by both discovery variants), `Bindgen` (the builder
record and the include-argument loop), `BindingHelpers` (`probe_libs`,
`bindings_builder`), `LegacyBuild` (root `build.rs`), `VersionCapture`, and
`VersionGate`.

Everything the scripts read from outside is a parameter:
- the environment is a `map<string, string>`;
- the `pkg-config` and `vcpkg` answers are `Option<Probe>`;
- `mysql_config` is a function from its argument to an optional process output;
- the platform the build script is compiled for (what its `cfg!` and `#[cfg]`
  tests see) is `WindowsGnu | WindowsMsvc | Other`;
- bindgen's run is the sequence of callback invocations it makes, or `None` when
  generation fails;
- the client version text and the semver crate's parse and match functions are
  parameters of the gate.

Three details of the code are worth stating plainly:
- A `mysql_config` answer that trims to the empty string is accepted, because
  nothing checks that it is non-empty.
- Repeated `MYSQL_SERVER_VERSION` values overwrite one another, so the last
  value wins.
- The gate's length check and slice count bytes, not characters. A literal
  whose first or last character is wider than one byte panics at the slice, not
  with `ATTR_ERR_MSG`.

## Model

| member | source | states |
|---|---|---|
| Text.Trim | binding-helpers/src/lib.rs:92 | the result has no whitespace at either end, and the input is that result with only whitespace before and after it |
| Text.TrimCharacterised | binding-helpers/src/lib.rs:92 | any split of a string into whitespace, a core with no whitespace at either end, and whitespace trims to exactly that core |
| Text.TrimIdempotent | binding-helpers/src/lib.rs:92 | trimming an already trimmed value changes nothing |
| Text.SplitPieces | mysqlclient-macros/build.rs:41 | no piece of a split contains the separator |
| Text.SplitHead | mysqlclient-macros/build.rs:41 | the first piece is the text before the first separator, and there is a single piece exactly when the separator does not occur |
| Text.JoinSplit | mysqlclient-macros/build.rs:41 | joining the pieces of a split with the separator gives back the original string |
| Text.SplitJoin | mysqlclient-macros/build.rs:41 | splitting a join of separator-free pieces gives back the pieces |
| Discovery.VariableArg | binding-helpers/src/lib.rs:87 | `mysql_config` is run with the single argument `--variable=` followed by the variable name |
| Discovery.MysqlConfigVariable | binding-helpers/src/lib.rs:85-94 | the answer is present exactly when the tool starts, exits successfully and prints UTF-8; it is then the trimmed stdout, and the empty string is allowed |
| Discovery.TryVcpkg | binding-helpers/src/lib.rs:111-122 | the vcpkg strategy succeeds only when the script is compiled for MSVC and vcpkg finds the library; its result never asks the script to print link directives and carries vcpkg's paths |
| Discovery.Select | binding-helpers/src/lib.rs:11-34 | the environment pair wins whenever both variables are set; pkg-config and vcpkg winners never need linking; explicit winners carry one lib and one include path and the caller's link flag; vcpkg wins only on MSVC; nothing is found exactly when all four strategies fail |
| Discovery.FirstSuccess | binding-helpers/src/lib.rs:11-34 | reference reading of strategy order: the result is the first attempt that succeeded, all earlier ones failed, and it is empty only when every attempt failed |
| Discovery.SelectIsFirstSuccess | binding-helpers/src/lib.rs:11-34 | the `else if` chain equals first-success over the list [environment, pkg-config, vcpkg, mysql_config] |
| Discovery.SearchLines | binding-helpers/src/lib.rs:37-39 | one `cargo:rustc-link-search=native=<path>` line per link path, in order, from which the path reads back unchanged |
| Discovery.SearchDirectives | binding-helpers/src/lib.rs:37-39 | one `rustc-link-search=native=` directive per link path, in path order |
| Discovery.DirectivesRoundTrip | binding-helpers/src/lib.rs:36-48 | the search paths and the library list can both be read back from the printed directives |
| Discovery.LinkOutput | binding-helpers/src/lib.rs:36-49 | with `needs_link` false nothing is printed; otherwise the directives list exactly the link paths and then exactly the libraries |
| Discovery.ResolveIsFirstSuccess | binding-helpers/src/lib.rs:10-52 | discovery panics exactly when every strategy fails; otherwise it returns the paths of the first strategy that succeeded, prints nothing when that winner does not need linking, and otherwise prints exactly its link paths and then the libraries |
| Discovery.ResolveExtraLibraries | build.rs:64-75 | appending libraries to a non-empty library list keeps the same success and the same paths; printed directives gain exactly those libraries at the end, and nothing printed stays nothing printed |
| Bindgen.IncludeArg | binding-helpers/src/lib.rs:75 | the clang argument is `-I` followed by the path |
| Bindgen.IncludeArgsRoundTrip | binding-helpers/src/lib.rs:74-76 | arguments built one `-I` per path read back as exactly those paths |
| Bindgen.AddIncludeArgs | binding-helpers/src/lib.rs:74-76 | one `-I<path>` is appended per include path, in input order; earlier arguments and all other builder settings are unchanged |
| BindingHelpers.HelperLibraries | binding-helpers/src/lib.rs:40-48 | every platform links at least one library, and the list holds only library directives |
| BindingHelpers.HelperLibraryLines | binding-helpers/src/lib.rs:40-48 | windows-gnu prints `dylib=mysql`, windows-msvc prints `static=mysqlclient`, and other platforms print `mysqlclient`, `ssl`, `crypto` in that order |
| BindingHelpers.ProbeLibs | binding-helpers/src/lib.rs:10-52 | the environment pair wins whatever later strategies report, and prints directives exactly when `should_link`; pkg-config or vcpkg results print nothing; `mysql_config` applies only when both lookups answer; nothing is printed without `should_link`; printed output is the link paths, then the platform's libraries |
| BindingHelpers.ProbeLibsPanics | binding-helpers/src/lib.rs:30-33 | `probe_libs` panics exactly when all four strategies fail |
| BindingHelpers.EnvPairOverrides | binding-helpers/src/lib.rs:13-17 | with both variables set, the result depends on the environment alone |
| BindingHelpers.HalfEnvFallsThrough | binding-helpers/src/lib.rs:13-19 | with only one of the two variables set, the result is the same as with neither set |
| BindingHelpers.BindingsBuilder | binding-helpers/src/lib.rs:54-83 | the builder uses the wrapper header, blocklists `my_bool`, uses exhaustive Rust enums and type aliases, and has one `-I` per include path in order; with `emit`, it adds the cargo callbacks and prints one `rerun-if-changed` line, and without it, it adds nothing |
| LegacyBuild.LegacyLibraries | build.rs:68-74 | every platform links exactly one library |
| LegacyBuild.LegacyLibraryLines | build.rs:68-74 | windows-gnu prints `dylib=mysql`, windows-msvc prints `static=mysqlclient`, and other platforms print `mysqlclient` only |
| LegacyBuild.LinkLibs | build.rs:38-78 | the environment and `mysql_config` winners always print one search directive and the platform's single library; pkg-config and vcpkg winners print nothing; the panic happens exactly when all strategies fail |
| LegacyBuild.VariantsAgree | build.rs:64-75 | `link_libs` and `probe_libs(true)` succeed together and find the same paths; their directives are equal except on non-Windows platforms, where `probe_libs` adds `ssl` and `crypto` at the end |
| LegacyBuild.BuildBindings | build.rs:15-28 | the builder uses `wrapper.h` with no blocklist, exhaustive Rust enums, type aliases, one `-I` per include path in order, and always the cargo callbacks |
| VersionCapture.WillParseMacro | mysqlclient-macros/build.rs:10-15 | the allow-list has one entry: only `MYSQL_SERVER_VERSION` is parsed, and every other macro is ignored |
| VersionCapture.StrMacro | mysqlclient-macros/build.rs:16-24 | the server-version value overwrites the cell whatever it held, and any other macro leaves the cell as it was |
| VersionCapture.LastCaptureSpec | mysqlclient-macros/build.rs:16-24 | reference reading of the cell: empty exactly when no server-version value was seen, and otherwise the value of a capture that no later capture follows |
| VersionCapture.ReplayLastWriteWins | mysqlclient-macros/build.rs:6-31 | replaying bindgen's callback invocations in order (`Replay`): after any run, the cell holds the last captured value, or its earlier content if nothing was captured |
| VersionCapture.VersionOf | mysqlclient-macros/build.rs:41-46 | the version is the prefix before the first `-`, or the whole string when there is none; the vendor is MariaDB exactly when the string contains `-` |
| VersionCapture.MariaDbVersion | mysqlclient-macros/build.rs:41-46 | for `<version>-<tag>` with a dash-free version, the result is that version with the MariaDB vendor |
| VersionCapture.MacrosBuildMain | mysqlclient-macros/build.rs:33-46 | a failed generation aborts; a run that never captured the macro aborts; otherwise the constants come from the last captured value |
| VersionCapture.MacrosBuilder | mysqlclient-macros/build.rs:34-37 | generation uses the helper builder with the single include argument `-I/usr/include/mysql`, then registers the cargo callbacks and the version callback |
| VersionGate.FirstBoundary | mysqlclient-macros/src/lib.rs:27 | byte 1 is a character boundary exactly when the literal's first character is one byte wide |
| VersionGate.LastBoundary | mysqlclient-macros/src/lib.rs:27 | byte `len - 1` is a character boundary exactly when the literal's last character is one byte wide |
| VersionGate.InnerText | mysqlclient-macros/src/lib.rs:26-27 | the slice succeeds exactly when both cut points are character boundaries; it then yields the text between a one-byte first and a one-byte last character, two bytes shorter |
| VersionGate.GetVersion | mysqlclient-macros/src/lib.rs:11-17 | non-UTF-8 client info panics, unparseable client info panics with its own message, and otherwise the result is the parsed version |
| VersionGate.MysqlclientVersion | mysqlclient-macros/src/lib.rs:19-36 | the item comes back whole or empty; an empty attribute or a non-literal first token panics with ATTR_ERR_MSG, and so does a literal shorter than 2 bytes or an unparseable requirement; a match keeps the item and a mismatch empties it; an unusable client version always panics |
| VersionGate.OnlyFirstTokenMatters | mysqlclient-macros/src/lib.rs:21 | tokens after the first attribute token do not change the outcome |
| VersionGate.QuotedRequirement | mysqlclient-macros/src/lib.rs:21-32 | for any one-byte opening and closing characters, quotes or not, around a parseable requirement, and a parseable client version, the gate keeps the item exactly when the requirement matches |

## Left out

- Reading the environment, spawning `mysql_config`, and the `pkg_config` and `vcpkg` crates are replaced by their observable answers (parameters). The link lines those crates print themselves, and the `emit_includes` output of `vcpkg`, are not modelled.
- `Host.pkgConfig` is pkg-config's answer under the `print_system_cflags` / `print_system_libs` settings that `should_link` selects. Those settings decide whether system `-I` / `-L` directories are reported, so they can change the returned paths. The model does not relate the answers for the two settings; `LegacyBuild.VariantsAgree` compares only `probe_libs(true)`, which uses the same settings as the root script.
- Environment values that are not valid Unicode make `env::var` fail. The model treats such a variable as unset.
- `path_strs`, `to_string_lossy`, `from_utf8_lossy` and `CStr::to_str`: paths and the macro value are taken as already-decoded strings. A client-info string that is not UTF-8 appears only as the `ClientInfoUtf8Panic` case.
- bindgen internals: `generate`, `write_to_file`, what `CargoCallbacks` does, and whether a second `parse_callbacks` call replaces or adds to the first. The model records the registrations in order.
- Canonicalising the wrapper path from `CARGO_MANIFEST_DIR` is left out; the canonical path is a parameter.
- Writing `bindings.rs` and `version.rs` under `OUT_DIR`, and the exact text of `version.rs`, are file I/O and are left out.
- The `Arc<Mutex<..>>` around the capture cell is not modelled, because the cell is used from a single thread. It is modelled as a plain value.
- `VersionReq::parse`, `VersionReq::matches`, `Version::parse` and the FFI call `mysql_get_client_info` are parameters. So concrete semver outcomes such as `>=8.0.0, <9.0.0` against `8.0.31` are not derived.
- `mysqlclient-bindings/build.rs` is not modelled. It only calls `probe_libs(true)` and `bindings_builder(.., true)`, then writes a file.
- Panic message texts are not modelled: a panic is its error case (`LibraryNotFound`, `AttrPanic`, `SliceBoundaryPanic`, `ClientInfoUtf8Panic`, `ClientVersionPanic`), not the text it prints.
- Cross-compilation is not distinguished: the `cfg!` and `#[cfg]` tests see the platform the build script runs on, and the model takes that one platform as a parameter, so the libraries it names are the build host's, as in the code.

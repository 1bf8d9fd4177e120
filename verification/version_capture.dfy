/**
 * The build script of `mysqlclient-macros`: a bindgen parse callback that
 * captures the string value of `MYSQL_SERVER_VERSION` while the client header
 * is parsed, and the split of that value into a version and a vendor.
 *
 * The callback's `Arc<Mutex<Option<String>>>` cell is shared by every clone of
 * the callback and is only used from one thread, so one immutable value stands
 * for the cell and each callback invocation maps it to its next value.
 */
module VersionCapture {
  import opened Wrappers
  import Text
  import Bindgen
  import BindingHelpers

  const ServerVersionMacro: string := "MYSQL_SERVER_VERSION"
  const MysqlIncludeDir: string := "/usr/include/mysql"

  /** bindgen's `MacroParsingBehavior`. */
  datatype MacroParsingBehavior = Default | Ignore

  /** `MysqlVersionCallback`: the content of its shared cell. */
  datatype Callback = Callback(captured: Option<string>)

  /** `MysqlVersionCallback::default()`: nothing captured yet. */
  const Fresh: Callback := Callback(None)

  /** `will_parse_macro`: only the server-version macro is let through. */
  function WillParseMacro(name: string): (b: MacroParsingBehavior)
    ensures b == Default <==> name == ServerVersionMacro
  {
    if name == ServerVersionMacro then Default else Ignore
  }

  /** `str_macro`: the server-version value replaces whatever the cell held; other macros change nothing. */
  function StrMacro(cb: Callback, name: string, value: string): (cb': Callback)
    ensures name == ServerVersionMacro ==> cb'.captured == Some(value)
    ensures name != ServerVersionMacro ==> cb' == cb
  {
    if name == ServerVersionMacro then Callback(Some(value)) else cb
  }

  /** `version()`: a copy of the cell's content. */
  function Version(cb: Callback): Option<string>
  {
    cb.captured
  }

  /** One invocation of the callback by bindgen while it parses the header. */
  datatype MacroEvent = WillParse(name: string) | StrValue(name: string, value: string)

  predicate IsCapture(e: MacroEvent)
  {
    e.StrValue? && e.name == ServerVersionMacro
  }

  /** The cell after one invocation: `will_parse_macro` only answers, `str_macro` may write. */
  function Step(cb: Callback, e: MacroEvent): Callback
  {
    match e
    case WillParse(_) => cb
    case StrValue(name, value) => StrMacro(cb, name, value)
  }

  /** The cell after a whole run of invocations, in order. */
  function Replay(cb: Callback, events: seq<MacroEvent>): Callback
    decreases |events|
  {
    if events == [] then cb else Replay(Step(cb, events[0]), events[1..])
  }

  /** The value of the last server-version `str_macro` call, if there was one. */
  function LastCapture(events: seq<MacroEvent>): Option<string>
  {
    if events == [] then None
    else if IsCapture(events[|events| - 1]) then Some(events[|events| - 1].value)
    else LastCapture(events[..|events| - 1])
  }

  /** `k` is a server-version capture that no later capture follows. */
  predicate IsLastCapture(events: seq<MacroEvent>, k: int)
  {
    && 0 <= k < |events|
    && IsCapture(events[k])
    && forall j :: k < j < |events| ==> !IsCapture(events[j])
  }

  /** `LastCapture` is empty exactly when nothing was captured, and otherwise is the last capture's value. */
  lemma {:induction false} LastCaptureSpec(events: seq<MacroEvent>)
    ensures LastCapture(events).None? <==> forall k :: 0 <= k < |events| ==> !IsCapture(events[k])
    ensures LastCapture(events).Some? ==>
      exists k :: IsLastCapture(events, k) && events[k].value == LastCapture(events).value
    decreases |events|
  {
    if events != [] {
      var n := |events| - 1;
      var init := events[..n];
      if IsCapture(events[n]) {
        assert IsLastCapture(events, n);
      } else {
        LastCaptureSpec(init);
        assert forall k :: 0 <= k < n ==> init[k] == events[k];
        if LastCapture(init).Some? {
          var k :| IsLastCapture(init, k) && init[k].value == LastCapture(init).value;
          assert IsLastCapture(events, k);
        }
      }
    }
  }

  lemma {:induction false} LastCaptureCons(e: MacroEvent, rest: seq<MacroEvent>)
    ensures LastCapture([e] + rest) ==
      if LastCapture(rest).Some? then LastCapture(rest)
      else if IsCapture(e) then Some(e.value)
      else None
    decreases |rest|
  {
    if rest != [] {
      var n := |rest| - 1;
      assert ([e] + rest)[..n + 1] == [e] + rest[..n];
      LastCaptureCons(e, rest[..n]);
    }
  }

  /** Last write wins: after a run the cell holds the value of the last capture, or what it held before. */
  lemma {:induction false} ReplayLastWriteWins(cb: Callback, events: seq<MacroEvent>)
    ensures Replay(cb, events).captured == if LastCapture(events).Some? then LastCapture(events) else cb.captured
    decreases |events|
  {
    if events != [] {
      ReplayLastWriteWins(Step(cb, events[0]), events[1..]);
      LastCaptureCons(events[0], events[1..]);
      assert [events[0]] + events[1..] == events;
    }
  }

  datatype Vendor = MariaDB | MySQL

  /** The `VERSION` and `VENDOR` constants the script writes to `version.rs`. */
  datatype VersionInfo = VersionInfo(version: string, vendor: Vendor)

  /** The two `unwrap`s of `main` that can fail. */
  datatype BuildError = GenerateFailed | VersionNotCaptured

  /**
   * `version_str.split("-")`: the version is the text before the first `-`
   * (all of it when there is none), and a second piece means MariaDB.
   */
  function VersionOf(captured: string): (info: VersionInfo)
    ensures info.vendor == MariaDB <==> !Text.Lacks(captured, '-')
    ensures Text.Lacks(info.version, '-')
    ensures info.version <= captured
    ensures |info.version| < |captured| ==> captured[|info.version|] == '-'
    ensures info.vendor == MySQL ==> info.version == captured
  {
    var parts := Text.Split(captured, '-');
    Text.SplitPieces(captured, '-');
    Text.SplitHead(captured, '-');
    VersionInfo(parts[0], if |parts| > 1 then MariaDB else MySQL)
  }

  /** A version string is recovered from its MariaDB-style `<version>-<tag>` form. */
  lemma MariaDbVersion(version: string, tag: string)
    requires Text.Lacks(version, '-')
    ensures VersionOf(version + "-" + tag) == VersionInfo(version, MariaDB)
  {
    var s := version + "-" + tag;
    var v := VersionOf(s).version;
    assert s[|version|] == '-';
    assert v == s[..|v|];
    assert v == version;
  }

  /**
   * `main` of the macros build script, from the events bindgen produced
   * (`None` when generation failed) to the constants it writes.
   */
  function MacrosBuildMain(generated: Option<seq<MacroEvent>>): (r: Result<VersionInfo, BuildError>)
    ensures r == Err(GenerateFailed) <==> generated.None?
    ensures generated.Some? ==> (r == Err(VersionNotCaptured) <==> forall k :: 0 <= k < |generated.value| ==> !IsCapture(generated.value[k]))
    ensures r.Ok? ==>
      exists k :: IsLastCapture(generated.value, k) && r.value == VersionOf(generated.value[k].value)
  {
    match generated
    case None => Err(GenerateFailed)
    case Some(events) =>
      ReplayLastWriteWins(Fresh, events);
      LastCaptureSpec(events);
      match Version(Replay(Fresh, events))
      case None => Err(VersionNotCaptured)
      case Some(s) => Ok(VersionOf(s))
  }

  /** The builder `main` generates with: the helper builder for `/usr/include/mysql`, plus this callback. */
  method MacrosBuilder(wrapperPath: string) returns (b: Bindgen.Builder, printed: seq<string>)
    ensures b.headers == [wrapperPath]
    ensures b.blocklistedTypes == ["my_bool"]
    ensures b.enumStyle == Bindgen.RustEnum(false) && b.aliasStyle == Bindgen.TypeAlias
    ensures b.clangArgs == ["-I/usr/include/mysql"]
    ensures b.parseCallbacks == [Bindgen.CargoCallbacks, Bindgen.MysqlVersionCallback]
    ensures printed == ["cargo:rerun-if-changed=" + wrapperPath]
  {
    b, printed := BindingHelpers.BindingsBuilder(wrapperPath, [MysqlIncludeDir], true);
    assert Bindgen.IncludeArg(MysqlIncludeDir) == "-I" + "/usr/include/mysql" == "-I/usr/include/mysql";
    assert b.clangArgs == [Bindgen.IncludeArg(MysqlIncludeDir)];
    b := b.(parseCallbacks := b.parseCallbacks + [Bindgen.MysqlVersionCallback]);
  }
}

/**
 * The `#[mysqlclient_version("<requirement>")]` attribute macro: it keeps the
 * annotated item when the client library's version satisfies the semver
 * requirement and deletes it otherwise.
 *
 * Semver parsing and matching come from the `semver` crate and the client
 * version from the FFI call `mysql_get_client_info`; both are parameters.
 */
module VersionGate {
  import opened Wrappers

  datatype Delimiter = Parenthesis | Brace | Bracket | NoDelimiter

  /** `proc_macro::TokenTree`; a literal carries its source text, quotes included. */
  datatype TokenTree =
    | Group(delimiter: Delimiter, stream: seq<TokenTree>)
    | Ident(name: string)
    | Punct(ch: char)
    | Literal(text: string)

  /** The `semver` crate as the macro uses it. */
  datatype Semver<!Req, !Ver> = Semver(
    parseReq: string -> Option<Req>,
    parseVersion: string -> Option<Ver>,
    matches: (Req, Ver) -> bool)

  /** The panics the macro can raise. */
  datatype GateError =
    | AttrPanic            // `ATTR_ERR_MSG`
    | SliceBoundaryPanic   // `&literal_string[1..len - 1]` cut inside a character
    | ClientInfoUtf8Panic  // `to_str().unwrap()` on a client-info string that is not UTF-8
    | ClientVersionPanic   // the client info is not a semantic version

  /** Bytes in the UTF-8 encoding of `c`. */
  function Utf8Width(c: char): (w: nat)
    ensures 1 <= w <= 4
    ensures w == 1 <==> (c as int) < 0x80
  {
    if (c as int) < 0x80 then 1
    else if (c as int) < 0x800 then 2
    else if (c as int) < 0x1_0000 then 3
    else 4
  }

  /** The byte offset at which character `k` of `s` starts in its UTF-8 encoding. */
  function ByteOffset(s: string, k: nat): (b: nat)
    requires k <= |s|
    ensures b >= k
  {
    if k == 0 then 0 else ByteOffset(s, k - 1) + Utf8Width(s[k - 1])
  }

  /** `str::len`: the length of the UTF-8 encoding of `s`. */
  function ByteLen(s: string): (n: nat)
    ensures n >= |s|
  {
    ByteOffset(s, |s|)
  }

  /** `str::is_char_boundary`: byte offset `b` falls between two characters of `s` (or at an end). */
  ghost predicate IsCharBoundary(s: string, b: int)
  {
    exists k :: 0 <= k <= |s| && ByteOffset(s, k) == b
  }

  /** Each character takes at least one byte, so later characters start at later bytes. */
  lemma {:induction false} ByteOffsetGrows(s: string, k: nat, j: nat)
    requires k <= j <= |s|
    ensures ByteOffset(s, k) + (j - k) <= ByteOffset(s, j)
    decreases j
  {
    if k < j {
      ByteOffsetGrows(s, k, j - 1);
    }
  }

  /** Byte 1 is a boundary exactly when the first character is one byte wide. */
  lemma FirstBoundary(s: string)
    requires s != []
    ensures IsCharBoundary(s, 1) <==> Utf8Width(s[0]) == 1
  {
    assert ByteOffset(s, 1) == Utf8Width(s[0]);
    if Utf8Width(s[0]) != 1 {
      forall k | 0 <= k <= |s| ensures ByteOffset(s, k) != 1 {
        if k > 0 {
          ByteOffsetGrows(s, 1, k);
        }
      }
    }
  }

  /** Byte `len - 1` is a boundary exactly when the last character is one byte wide. */
  lemma LastBoundary(s: string)
    requires s != []
    ensures IsCharBoundary(s, ByteLen(s) - 1) <==> Utf8Width(s[|s| - 1]) == 1
  {
    var n := |s| - 1;
    assert ByteLen(s) == ByteOffset(s, n) + Utf8Width(s[n]);
    if Utf8Width(s[n]) != 1 {
      forall k | 0 <= k <= |s| ensures ByteOffset(s, k) != ByteLen(s) - 1 {
        if k <= n {
          ByteOffsetGrows(s, k, n);
        }
      }
    }
  }

  /**
   * `&literal_string[1..literal_string.len() - 1]`: the characters lying between
   * byte 1 and byte `len - 1`, or `None` where Rust's byte slicing panics because
   * a cut falls inside a multi-byte character.
   */
  function InnerText(s: string): (r: Option<string>)
    requires ByteLen(s) >= 2
    ensures r.Some? <==> IsCharBoundary(s, 1) && IsCharBoundary(s, ByteLen(s) - 1)
    ensures r.Some? ==>
      && |s| >= 2
      && ByteOffset(s, 1) == 1
      && ByteOffset(s, |s| - 1) == ByteLen(s) - 1
      && r.value == s[1..|s| - 1]
  {
    FirstBoundary(s);
    LastBoundary(s);
    if Utf8Width(s[0]) == 1 && Utf8Width(s[|s| - 1]) == 1 then
      Some(s[1..|s| - 1])
    else
      None
  }

  /** `get_version()`: the client library's version, parsed. */
  function GetVersion<Req, Ver>(clientInfo: Option<string>, semver: Semver<Req, Ver>): (r: Result<Ver, GateError>)
    ensures r.Ok? <==> clientInfo.Some? && semver.parseVersion(clientInfo.value).Some?
    ensures r.Ok? ==> r.value == semver.parseVersion(clientInfo.value).value
    ensures clientInfo.None? ==> r == Err(ClientInfoUtf8Panic)
    ensures clientInfo.Some? && semver.parseVersion(clientInfo.value).None? ==> r == Err(ClientVersionPanic)
  {
    match clientInfo
    case None => Err(ClientInfoUtf8Panic)
    case Some(info) =>
      match semver.parseVersion(info)
      case None => Err(ClientVersionPanic)
      case Some(v) => Ok(v)
  }

  /**
   * `mysqlclient_version(attr, item)`. `clientInfo` is the text behind
   * `mysql_get_client_info()`, `None` when it is not valid UTF-8.
   */
  function MysqlclientVersion<Req, Ver>(
    attr: seq<TokenTree>, item: seq<TokenTree>, clientInfo: Option<string>, semver: Semver<Req, Ver>)
    : (r: Result<seq<TokenTree>, GateError>)
    // the item comes back whole or not at all
    ensures r.Ok? ==> r.value == item || r.value == []
    // the attribute must start with a literal
    ensures attr == [] || !attr[0].Literal? ==> r == Err(AttrPanic)
    ensures attr != [] && attr[0].Literal? && ByteLen(attr[0].text) < 2 ==> r == Err(AttrPanic)
    ensures attr != [] && attr[0].Literal? && ByteLen(attr[0].text) >= 2 ==>
      var inner := InnerText(attr[0].text);
      && (inner.None? ==> r == Err(SliceBoundaryPanic))
      && (inner.Some? && semver.parseReq(inner.value).None? ==> r == Err(AttrPanic))
      && (inner.Some? && semver.parseReq(inner.value).Some? ==>
            && (GetVersion(clientInfo, semver).Err? ==> r == Err(GetVersion(clientInfo, semver).error))
            && (GetVersion(clientInfo, semver).Ok? ==>
                  r == Ok(if semver.matches(semver.parseReq(inner.value).value, GetVersion(clientInfo, semver).value)
                          then item else [])))
    // an unusable client version is never read as "no match"
    ensures clientInfo.None? || semver.parseVersion(clientInfo.value).None? ==> r.Err?
  {
    if attr != [] && attr[0].Literal? then
      var literal := attr[0].text;
      if ByteLen(literal) < 2 then Err(AttrPanic)
      else match InnerText(literal)
        case None => Err(SliceBoundaryPanic)
        case Some(reqText) =>
          match semver.parseReq(reqText)
          case None => Err(AttrPanic)
          case Some(req) =>
            match GetVersion(clientInfo, semver)
            case Err(e) => Err(e)
            case Ok(version) => if semver.matches(req, version) then Ok(item) else Ok([])
    else
      Err(AttrPanic)
  }

  /** Only the first attribute token is looked at. */
  lemma OnlyFirstTokenMatters<Req, Ver>(
    first: TokenTree, rest: seq<TokenTree>, item: seq<TokenTree>, clientInfo: Option<string>, semver: Semver<Req, Ver>)
    ensures MysqlclientVersion([first] + rest, item, clientInfo, semver)
         == MysqlclientVersion([first], item, clientInfo, semver)
  {
  }

  /**
   * The intended use: a literal whose outer characters are one byte each (a pair
   * of quotes, though nothing checks that they are quotes) around a requirement
   * that parses; the item survives exactly when the requirement matches.
   */
  lemma QuotedRequirement<Req, Ver>(
    openQuote: char, requirement: string, closeQuote: char, rest: seq<TokenTree>,
    item: seq<TokenTree>, info: string, semver: Semver<Req, Ver>)
    requires (openQuote as int) < 0x80 && (closeQuote as int) < 0x80
    requires semver.parseReq(requirement).Some?
    requires semver.parseVersion(info).Some?
    ensures MysqlclientVersion([Literal([openQuote] + requirement + [closeQuote])] + rest, item, Some(info), semver)
         == Ok(if semver.matches(semver.parseReq(requirement).value, semver.parseVersion(info).value) then item else [])
  {
    var text := [openQuote] + requirement + [closeQuote];
    FirstBoundary(text);
    LastBoundary(text);
    assert text[0] == openQuote && text[|text| - 1] == closeQuote;
    assert text[1..|text| - 1] == requirement;
  }
}

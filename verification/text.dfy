/**
 * String helpers with the semantics of the Rust standard library calls the
 * build scripts use: `str::trim` and `str::split` on a single character.
 */
module Text {

  /** The Unicode White_Space property, which `char::is_whitespace` (and so `str::trim`) tests. */
  predicate IsWhitespace(c: char)
  {
    || ('\U{9}' <= c <= '\U{D}')
    || c == ' '
    || c == '\U{85}'
    || c == '\U{A0}'
    || c == '\U{1680}'
    || ('\U{2000}' <= c <= '\U{200A}')
    || c == '\U{2028}'
    || c == '\U{2029}'
    || c == '\U{202F}'
    || c == '\U{205F}'
    || c == '\U{3000}'
  }

  /** Neither end of `s` is whitespace. */
  predicate IsTrimmed(s: string)
  {
    s == [] || (!IsWhitespace(s[0]) && !IsWhitespace(s[|s| - 1]))
  }

  /** `s` is `m` with exactly `lead` whitespace characters before it and only whitespace after it. */
  predicate Framed(s: string, lead: nat, m: string)
  {
    && lead + |m| <= |s|
    && s[lead..lead + |m|] == m
    && (forall k :: 0 <= k < lead ==> IsWhitespace(s[k]))
    && (forall k :: lead + |m| <= k < |s| ==> IsWhitespace(s[k]))
  }

  /** The number of leading whitespace characters: where `str::trim_start` cuts. */
  function TrimStartIndex(s: string): (n: nat)
    ensures n <= |s|
    ensures forall k :: 0 <= k < n ==> IsWhitespace(s[k])
    ensures n < |s| ==> !IsWhitespace(s[n])
    decreases |s|
  {
    if s != [] && IsWhitespace(s[0]) then 1 + TrimStartIndex(s[1..]) else 0
  }

  /** The length left after dropping trailing whitespace: where `str::trim_end` cuts. */
  function TrimEndIndex(s: string): (e: nat)
    ensures e <= |s|
    ensures forall k :: e <= k < |s| ==> IsWhitespace(s[k])
    ensures e > 0 ==> !IsWhitespace(s[e - 1])
    decreases |s|
  {
    if s != [] && IsWhitespace(s[|s| - 1]) then TrimEndIndex(s[..|s| - 1]) else |s|
  }

  /** `str::trim`: the part of `s` between its leading and its trailing whitespace. */
  function Trim(s: string): (r: string)
    ensures IsTrimmed(r)
    ensures exists lead: nat :: Framed(s, lead, r)
  {
    var a := TrimStartIndex(s);
    var e := TrimEndIndex(s);
    if a < e then
      var r := s[a..e];
      assert Framed(s, a, r);
      r
    else
      assert Framed(s, 0, []);
      []
  }

  /** A string framed by whitespace trims to its trimmed core, whatever the framing. */
  lemma TrimCharacterised(s: string, lead: nat, m: string)
    requires Framed(s, lead, m) && IsTrimmed(m)
    ensures Trim(s) == m
  {
    var a := TrimStartIndex(s);
    var e := TrimEndIndex(s);
    if m == [] {
      assert forall k :: 0 <= k < |s| ==> IsWhitespace(s[k]);
      assert a == |s|;
    } else {
      var last := lead + |m| - 1;
      assert s[lead] == m[0] && s[last] == m[|m| - 1];
      assert a == lead;
      assert e == last + 1;
    }
  }

  /** Trimming twice is trimming once. */
  lemma TrimIdempotent(s: string)
    ensures Trim(Trim(s)) == Trim(s)
  {
    var r := Trim(s);
    assert Framed(r, 0, r) by {
      assert r[0..|r|] == r;
    }
    TrimCharacterised(r, 0, r);
  }

  /** `c` does not occur in `s`. */
  predicate Lacks(s: string, c: char)
  {
    forall j :: 0 <= j < |s| ==> s[j] != c
  }

  /** Index of the first `c` in `s`, or `|s|` when there is none. */
  function FirstIndex(s: string, c: char): (i: nat)
    ensures i <= |s|
    ensures forall j :: 0 <= j < i ==> s[j] != c
    ensures i < |s| ==> s[i] == c
    decreases |s|
  {
    if s == [] || s[0] == c then 0 else 1 + FirstIndex(s[1..], c)
  }

  /** `s.split(sep).collect()`: the pieces of `s` between occurrences of `sep`. */
  function Split(s: string, sep: char): (parts: seq<string>)
    ensures |parts| >= 1
    decreases |s|
  {
    var i := FirstIndex(s, sep);
    if i == |s| then [s] else [s[..i]] + Split(s[i + 1..], sep)
  }

  /** No piece that `Split` yields contains the separator. */
  lemma {:induction false} SplitPieces(s: string, sep: char)
    ensures forall k :: 0 <= k < |Split(s, sep)| ==> Lacks(Split(s, sep)[k], sep)
    decreases |s|
  {
    var i := FirstIndex(s, sep);
    if i < |s| {
      var tail := s[i + 1..];
      SplitPieces(tail, sep);
      SplitStep(s, sep, i);
      var parts := Split(s, sep);
      forall k | 0 <= k < |parts| ensures Lacks(parts[k], sep) {
        if k > 0 {
          assert parts[k] == Split(tail, sep)[k - 1];
        }
      }
    }
  }

  /**
   * The first piece is the text before the first separator, and there is a
   * single piece exactly when there is no separator.
   */
  lemma SplitHead(s: string, sep: char)
    ensures Split(s, sep)[0] == s[..FirstIndex(s, sep)]
    ensures |Split(s, sep)| == 1 <==> Lacks(s, sep)
  {
    var i := FirstIndex(s, sep);
    if i == |s| {
      assert s[..i] == s;
    } else {
      SplitStep(s, sep, i);
      assert s[i] == sep;
    }
  }

  /** `parts.join(sep)`: the pieces with `sep` between neighbours. */
  function Join(parts: seq<string>, sep: char): string
  {
    if parts == [] then []
    else if |parts| == 1 then parts[0]
    else parts[0] + [sep] + Join(parts[1..], sep)
  }

  /** One step of `Split`: the piece before the first separator, then the split of the rest. */
  lemma SplitStep(s: string, sep: char, i: nat)
    requires i == FirstIndex(s, sep) < |s|
    ensures Split(s, sep) == [s[..i]] + Split(s[i + 1..], sep)
  {
  }

  lemma JoinCons(p: string, rest: seq<string>, sep: char)
    requires |rest| >= 1
    ensures Join([p] + rest, sep) == p + [sep] + Join(rest, sep)
  {
    assert ([p] + rest)[1..] == rest;
  }

  lemma CutAt(s: string, i: nat)
    requires i < |s|
    ensures s == s[..i] + [s[i]] + s[i + 1..]
  {
  }

  /** Splitting loses nothing: joining the pieces back gives the original string. */
  lemma {:induction false} JoinSplit(s: string, sep: char)
    ensures Join(Split(s, sep), sep) == s
    decreases |s|
  {
    var i := FirstIndex(s, sep);
    if i < |s| {
      var tail := s[i + 1..];
      SplitStep(s, sep, i);
      JoinCons(s[..i], Split(tail, sep), sep);
      JoinSplit(tail, sep);
      CutAt(s, i);
    } else {
      assert s[..i] == s;
    }
  }

  /** The first separator in `p + [sep] + rest` is the one after a separator-free `p`. */
  lemma FirstIndexAfter(p: string, sep: char, rest: string)
    requires Lacks(p, sep)
    ensures FirstIndex(p + [sep] + rest, sep) == |p|
  {
    var s := p + [sep] + rest;
    assert s[|p|] == sep;
    assert forall j :: 0 <= j < |p| ==> s[j] == p[j];
  }

  /** Splitting a join of separator-free pieces gives back the pieces. */
  lemma {:induction false} SplitJoin(parts: seq<string>, sep: char)
    requires |parts| >= 1
    requires forall k :: 0 <= k < |parts| ==> Lacks(parts[k], sep)
    ensures Split(Join(parts, sep), sep) == parts
    decreases |parts|
  {
    if |parts| > 1 {
      var p := parts[0];
      var rest := Join(parts[1..], sep);
      var s := p + [sep] + rest;
      assert Join(parts, sep) == s;
      FirstIndexAfter(p, sep, rest);
      SplitStep(s, sep, |p|);
      SplitHead(s, sep);
      assert s[..|p|] == p;
      assert s[|p| + 1..] == rest;
      SplitJoin(parts[1..], sep);
      assert parts == [p] + parts[1..];
    } else {
      assert Join(parts, sep) == parts[0];
    }
  }
}

/** The JavaScript string operations the handlers use, written out:
    `String.prototype.trim`, `split(",")[0]`, the first capture of the regular
    expressions `/input=([^&]+)/` and `/prompt=([^&]+)/`, and
    `replace(/\+/g, " ")`. */
module JsText {
  import opened Wrappers

  /** The code points `trim` removes: ECMAScript WhiteSpace (TAB, VT, FF,
      ZWNBSP and every space separator of category Zs) and LineTerminator
      (LF, CR, LS, PS). */
  predicate IsJsSpace(c: char) {
    var n := c as int;
    n == 0x09 || n == 0x0A || n == 0x0B || n == 0x0C || n == 0x0D
    || n == 0x20 || n == 0xA0 || n == 0x1680 || (0x2000 <= n <= 0x200A)
    || n == 0x2028 || n == 0x2029 || n == 0x202F || n == 0x205F
    || n == 0x3000 || n == 0xFEFF
  }

  predicate AllSpace(s: string) {
    forall k :: 0 <= k < |s| ==> IsJsSpace(s[k])
  }

  /** The number of whitespace characters `s` starts with. */
  function Leading(s: string): (n: nat)
    ensures n <= |s| && (forall k :: 0 <= k < n ==> IsJsSpace(s[k]))
    ensures n < |s| ==> !IsJsSpace(s[n])
  {
    if s != [] && IsJsSpace(s[0]) then
      var m := Leading(s[1..]);
      assert forall k :: 1 <= k < m + 1 ==> s[k] == s[1..][k - 1];
      1 + m
    else 0
  }

  /** The number of whitespace characters `s` ends with. */
  function Trailing(s: string): (n: nat)
    ensures n <= |s| && (forall k :: |s| - n <= k < |s| ==> IsJsSpace(s[k]))
    ensures n < |s| ==> !IsJsSpace(s[|s| - n - 1])
  {
    if s != [] && IsJsSpace(s[|s| - 1]) then 1 + Trailing(s[..|s| - 1]) else 0
  }

  /** `s.trim()` */
  function Trim(s: string): (r: string)
    ensures |r| <= |s| - Leading(s) && r <= s[Leading(s)..]
  {
    var t := s[Leading(s)..];
    t[..|t| - Trailing(t)]
  }

  /** `s.trim()` is empty exactly when `s` is all whitespace. */
  lemma TrimEmptyIffAllSpace(s: string)
    ensures Trim(s) == [] <==> AllSpace(s)
  {
    var i := Leading(s);
    var t := s[i..];
    if i < |s| {
      assert t[0] == s[i];
      assert Trailing(t) < |t|;
    }
  }

  /** A non-empty `s.trim()` neither starts nor ends with whitespace. */
  lemma TrimEnds(s: string)
    ensures var r := Trim(s); r != [] ==> !IsJsSpace(r[0]) && !IsJsSpace(r[|r| - 1])
  {
    var i := Leading(s);
    var t := s[i..];
    var r := Trim(s);
    if r != [] {
      assert r[0] == s[i];
      assert r[|r| - 1] == t[|t| - Trailing(t) - 1];
    }
  }

  /** `s.trim()` is the slice of `s` that starts after its leading
      whitespace, with only whitespace on either side of it. */
  lemma TrimIsSlice(s: string)
    ensures var r, i := Trim(s), Leading(s);
      && i + |r| <= |s| && r == s[i..i + |r|]
      && AllSpace(s[..i]) && AllSpace(s[i + |r|..])
  {
    var i := Leading(s);
    var t := s[i..];
    var r := Trim(s);
    assert r == s[i..i + |r|];
    assert AllSpace(s[..i]) by {
      forall k | 0 <= k < i ensures IsJsSpace(s[..i][k]) {
        assert s[..i][k] == s[k];
      }
    }
    var u := s[i + |r|..];
    assert AllSpace(u) by {
      forall k | 0 <= k < |u| ensures IsJsSpace(u[k]) {
        assert u[k] == t[|r| + k];
      }
    }
  }

  /** Trimming twice is trimming once. */
  lemma TrimIdempotent(s: string)
    ensures Trim(Trim(s)) == Trim(s)
  {
    var r := Trim(s);
    TrimEnds(s);
    assert Leading(r) == 0;
    assert Trailing(r) == 0;
  }

  /** `"  hello  ".trim()` is `"hello"`. */
  lemma TrimHello()
    ensures Trim("  hello  ") == "hello"
  {
    assert Leading("hello  ") == 0;
    assert " hello  "[1..] == "hello  ";
    assert Leading(" hello  ") == 1;
    assert "  hello  "[1..] == " hello  ";
    assert Leading("  hello  ") == 2;
    assert "  hello  "[2..] == "hello  ";
    assert Trailing("hello") == 0;
    assert "hello "[..5] == "hello";
    assert Trailing("hello ") == 1;
    assert "hello  "[..6] == "hello ";
    assert Trailing("hello  ") == 2;
    assert "hello  "[..5] == "hello";
  }

  /** The longest prefix of `s` without `stop`. With `','` it is
      `s.split(",")[0]`; with `'&'` it is what the greedy `[^&]+` consumes. */
  function Until(s: string, stop: char): (r: string)
    ensures r <= s && stop !in r
    ensures |r| < |s| ==> s[|r|] == stop
  {
    if s == [] || s[0] == stop then [] else [s[0]] + Until(s[1..], stop)
  }

  /** The regular expression `key([^&]+)` can match starting at index `i`:
      `key` occurs there and is followed by at least one character that is
      not `&`. */
  predicate MatchesAt(body: string, key: string, i: nat) {
    i + |key| < |body| && body[i..i + |key|] == key && body[i + |key|] != '&'
  }

  /** The leftmost index at or after `from` where the regular expression
      matches, as `String.prototype.match` searches. */
  function FindFrom(body: string, key: string, from: nat): (r: Option<nat>)
    decreases |body| - from
    ensures r.Some? ==> from <= r.value && MatchesAt(body, key, r.value)
    ensures r.Some? ==> forall j :: from <= j < r.value ==> !MatchesAt(body, key, j)
    ensures r.None? ==> forall j :: from <= j ==> !MatchesAt(body, key, j)
  {
    if from + |key| >= |body| then None
    else if MatchesAt(body, key, from) then Some(from)
    else FindFrom(body, key, from + 1)
  }

  /** `body.match(/key([^&]+)/)?.[1]`: the first capture group of the
      leftmost match, or `None` when the expression does not match. */
  function Capture(body: string, key: string): (r: Option<string>)
    ensures r.None? <==> forall j :: 0 <= j ==> !MatchesAt(body, key, j)
    ensures r.Some? ==> |r.value| > 0 && '&' !in r.value
  {
    match FindFrom(body, key, 0)
    case Some(i) =>
      assert body[i + |key|..][0] == body[i + |key|];
      Some(Until(body[i + |key|..], '&'))
    case None => None
  }

  /** What a successful match captures: a non-empty run without `&` that
      follows the leftmost usable occurrence of `key` and stops at the next
      `&` or at the end of the body. */
  lemma CaptureIsLeftmostRun(body: string, key: string)
    ensures Capture(body, key).None? <==> forall j :: 0 <= j ==> !MatchesAt(body, key, j)
    ensures Capture(body, key).Some? ==>
      exists i: nat :: MatchesAt(body, key, i)
        && (forall j :: 0 <= j < i ==> !MatchesAt(body, key, j))
        && var v := Capture(body, key).value;
        && |v| > 0 && '&' !in v
        && i + |key| + |v| <= |body|
        && v == body[i + |key|..i + |key| + |v|]
        && (i + |key| + |v| == |body| || body[i + |key| + |v|] == '&')
  {
    match FindFrom(body, key, 0)
    case None =>
    case Some(i) =>
      var rest := body[i + |key|..];
      var v := Until(rest, '&');
      assert rest[0] == body[i + |key|];
      assert |v| > 0;
      assert v == body[i + |key|..i + |key| + |v|];
      assert MatchesAt(body, key, i);
  }

  /** `s.replace(/\+/g, " ")` */
  function PlusToSpace(s: string): (r: string)
    ensures |r| == |s| && '+' !in r
    ensures forall k :: 0 <= k < |s| && s[k] == '+' ==> r[k] == ' '
    ensures forall k :: 0 <= k < |s| && s[k] != '+' ==> r[k] == s[k]
  {
    if s == [] then [] else [if s[0] == '+' then ' ' else s[0]] + PlusToSpace(s[1..])
  }
}

/** The few functions of Go's `strings`, `strconv` and `path/filepath` packages
    that the supervisor's logic depends on, with the properties the model relies on. */
module Strings {
  import opened Wrappers

  predicate HasPrefix(s: string, p: string) {
    |p| <= |s| && s[..|p|] == p
  }

  predicate HasSuffix(s: string, p: string) {
    |p| <= |s| && s[|s| - |p|..] == p
  }

  /** strings.TrimSuffix: removes one trailing copy of `suffix`, if present. */
  function TrimSuffix(s: string, suffix: string): (r: string)
    ensures HasSuffix(s, suffix) ==> r + suffix == s
    ensures !HasSuffix(s, suffix) ==> r == s
  {
    if HasSuffix(s, suffix) then s[..|s| - |suffix|] else s
  }

  /** unicode.IsSpace, on code points: tab to carriage return, space, U+0085, U+00A0, U+1680,
      U+2000 to U+200A, U+2028, U+2029, U+202F, U+205F and U+3000. */
  predicate IsSpace(c: char) {
    var n := c as int;
    (9 <= n <= 13) || n == 0x20 || n == 0x85 || n == 0xA0 || n == 0x1680 || (0x2000 <= n <= 0x200A)
    || n == 0x2028 || n == 0x2029 || n == 0x202F || n == 0x205F || n == 0x3000
  }

  predicate AllSpace(s: string) {
    forall i :: 0 <= i < |s| ==> IsSpace(s[i])
  }

  /** strings.TrimLeft with unicode.IsSpace. */
  function TrimLeft(s: string): (r: string)
    ensures |r| <= |s|
  {
    if |s| > 0 && IsSpace(s[0]) then TrimLeft(s[1..]) else s
  }

  /** strings.TrimRight with unicode.IsSpace. */
  function TrimRight(s: string): (r: string)
    ensures |r| <= |s|
  {
    if |s| > 0 && IsSpace(s[|s| - 1]) then TrimRight(s[..|s| - 1]) else s
  }

  /** TrimLeft cuts off the longest all-space prefix. */
  lemma {:induction false} TrimLeftCuts(s: string)
    ensures var r := TrimLeft(s);
      r == s[|s| - |r|..] && AllSpace(s[..|s| - |r|]) && (r == [] || !IsSpace(r[0]))
  {
    if |s| > 0 && IsSpace(s[0]) {
      var r := TrimLeft(s[1..]);
      TrimLeftCuts(s[1..]);
      assert s[1..][..|s[1..]| - |r|] == s[1..|s| - |r|];
      assert s[..|s| - |r|] == [s[0]] + s[1..|s| - |r|];
    } else {
      assert s[..0] == [];
    }
  }

  /** TrimRight cuts off the longest all-space suffix. */
  lemma {:induction false} TrimRightCuts(s: string)
    ensures var r := TrimRight(s);
      r == s[..|r|] && AllSpace(s[|r|..]) && (r == [] || !IsSpace(r[|r| - 1]))
  {
    if |s| > 0 && IsSpace(s[|s| - 1]) {
      var r := TrimRight(s[..|s| - 1]);
      TrimRightCuts(s[..|s| - 1]);
      assert s[..|s| - 1][|r|..] + [s[|s| - 1]] == s[|r|..];
    } else {
      assert s[|s|..] == [];
    }
  }

  /** `r` is `s` with the all-space prefix `s[..k]` and an all-space suffix cut off. */
  predicate TrimmedAt(s: string, r: string, k: nat) {
    k + |r| <= |s| && r == s[k..k + |r|] && AllSpace(s[..k]) && AllSpace(s[k + |r|..])
  }

  /** strings.TrimSpace. */
  function TrimSpace(s: string): (r: string)
    ensures |r| <= |s|
  {
    TrimRight(TrimLeft(s))
  }

  /** TrimSpace removes nothing but spaces, from both ends, and leaves neither end a space. */
  lemma TrimSpaceTrims(s: string)
    ensures var r := TrimSpace(s);
      TrimmedAt(s, r, |s| - |TrimLeft(s)|) && (r == [] || (!IsSpace(r[0]) && !IsSpace(r[|r| - 1])))
  {
    var l := TrimLeft(s);
    var r := TrimRight(l);
    var k := |s| - |l|;
    assert l == s[k..] && AllSpace(s[..k]) && (l == [] || !IsSpace(l[0])) by {
      TrimLeftCuts(s);
    }
    assert r == l[..|r|] && AllSpace(l[|r|..]) && (r == [] || !IsSpace(r[|r| - 1])) by {
      TrimRightCuts(l);
    }
    assert r == s[k..k + |r|];
    assert s[k + |r|..] == l[|r|..];
    if r != [] {
      assert r[0] == l[0];
    }
  }

  /** The number of occurrences of `c` in `s`. */
  function Count(s: string, c: char): nat {
    multiset(s)[c]
  }

  /** The index of the first `c` in `s`. */
  function IndexOf(s: string, c: char): (i: nat)
    requires c in s
    ensures i < |s| && s[i] == c && c !in s[..i]
  {
    if s[0] == c then 0
    else
      var i := 1 + IndexOf(s[1..], c);
      assert s[..i] == [s[0]] + s[1..][..i - 1];
      i
  }

  /** strings.Join with a one-character separator. */
  function Join(parts: seq<string>, sep: char): string {
    if |parts| == 0 then ""
    else if |parts| == 1 then parts[0]
    else parts[0] + [sep] + Join(parts[1..], sep)
  }

  /** strings.Split with a one-character separator. */
  function Split(s: string, sep: char): (parts: seq<string>)
    ensures |parts| >= 1
    decreases |s|
  {
    if sep !in s then [s]
    else
      var i := IndexOf(s, sep);
      [s[..i]] + Split(s[i + 1..], sep)
  }

  /** No field of a split holds the separator, and joining the fields back gives the input. */
  lemma {:induction false} SplitFields(s: string, sep: char)
    ensures forall i :: 0 <= i < |Split(s, sep)| ==> sep !in Split(s, sep)[i]
    ensures Join(Split(s, sep), sep) == s
    decreases |s|
  {
    if sep in s {
      var i := IndexOf(s, sep);
      var rest := Split(s[i + 1..], sep);
      SplitFields(s[i + 1..], sep);
      var parts := [s[..i]] + rest;
      assert parts[1..] == rest;
      assert s == s[..i] + [sep] + s[i + 1..];
    }
  }

  /** Splitting yields one more field than there are separators. */
  lemma {:induction false} SplitCount(s: string, sep: char)
    ensures |Split(s, sep)| == Count(s, sep) + 1
    decreases |s|
  {
    if sep in s {
      var i := IndexOf(s, sep);
      SplitCount(s[i + 1..], sep);
      assert s == s[..i] + [sep] + s[i + 1..];
      assert multiset(s[..i])[sep] == 0;
    }
  }

  /** Split is the inverse of Join when no field holds the separator. */
  lemma {:induction false} SplitJoin(parts: seq<string>, sep: char)
    requires |parts| >= 1
    requires forall i :: 0 <= i < |parts| ==> sep !in parts[i]
    ensures Split(Join(parts, sep), sep) == parts
  {
    if |parts| > 1 {
      var s := Join(parts, sep);
      var tail := Join(parts[1..], sep);
      assert s == parts[0] + [sep] + tail;
      assert s[|parts[0]|] == sep;
      assert s[..|parts[0]|] == parts[0];
      assert IndexOf(s, sep) == |parts[0]|;
      assert s[|parts[0]| + 1..] == tail;
      SplitJoin(parts[1..], sep);
    }
  }

  /** filepath.Base on a slash-separated path: "." for the empty path, "/" for a path of
      slashes only, otherwise the last element with trailing slashes removed. */
  function Base(path: string): (r: string)
    ensures |r| >= 1
  {
    if path == "" then "."
    else
      var trimmed := TrimTrailingSlashes(path);
      if trimmed == "" then "/" else LastElement(trimmed)
  }

  function TrimTrailingSlashes(s: string): (r: string)
    ensures |r| <= |s|
    ensures r == [] || r[|r| - 1] != '/'
  {
    if |s| > 0 && s[|s| - 1] == '/' then TrimTrailingSlashes(s[..|s| - 1]) else s
  }

  /** The part of `s` after its last slash. */
  function LastElement(s: string): (r: string)
    ensures |r| <= |s|
    ensures s != [] && s[|s| - 1] != '/' ==> r != []
  {
    if |s| == 0 || s[|s| - 1] == '/' then []
    else LastElement(s[..|s| - 1]) + [s[|s| - 1]]
  }

  /** LastElement is the longest slash-free suffix. */
  lemma {:induction false} LastElementSuffix(s: string)
    ensures var r := LastElement(s);
      r == s[|s| - |r|..] && '/' !in r && (|r| < |s| ==> s[|s| - |r| - 1] == '/')
  {
    if |s| > 0 && s[|s| - 1] != '/' {
      var init := s[..|s| - 1];
      LastElementSuffix(init);
      var r := LastElement(init);
      var whole := r + [s[|s| - 1]];
      assert LastElement(s) == whole;
      assert s == init + [s[|s| - 1]];
      var k := |init| - |r|;
      assert |s| - |whole| == k;
      assert s[k..] == init[k..] + [s[|s| - 1]];
      assert '/' !in whole;
      if |whole| < |s| {
        assert s[|s| - |whole| - 1] == init[|init| - |r| - 1];
      }
    }
  }

  /** The base name of a path is ".", "/", or a slash-free name, and a slash-free path is its
      own base name. */
  lemma BaseName(path: string)
    ensures var r := Base(path); r == "/" || r == "." || '/' !in r
    ensures path != "" && '/' !in path ==> Base(path) == path
  {
    if path != "" {
      var trimmed := TrimTrailingSlashes(path);
      if trimmed != "" {
        LastElementSuffix(trimmed);
      }
      if '/' !in path {
        assert TrimTrailingSlashes(path) == path;
        LastElementSuffix(path);
        assert |LastElement(path)| == |path|;
      }
    }
  }

  // ---- decimal numerals (strconv.Itoa, strconv.Atoi, fmt's %d) ----

  const MinInt64: int := -0x8000_0000_0000_0000
  const MaxInt64: int := 0x7FFF_FFFF_FFFF_FFFF

  predicate IsDigit(c: char) { '0' <= c <= '9' }

  predicate AllDigits(s: string) {
    forall i :: 0 <= i < |s| ==> IsDigit(s[i])
  }

  function DigitChar(d: nat): (c: char)
    requires d < 10
    ensures IsDigit(c)
  {
    ('0' as int + d) as char
  }

  function DigitValue(c: char): nat
    requires IsDigit(c)
  {
    c as int - '0' as int
  }

  /** The shortest decimal numeral of `n`. */
  function NatToDecimal(n: nat): (s: string)
    ensures |s| >= 1 && AllDigits(s)
    ensures s[0] == '0' ==> n == 0
  {
    if n < 10 then [DigitChar(n)] else NatToDecimal(n / 10) + [DigitChar(n % 10)]
  }

  /** The value of a string of decimal digits. */
  function DigitsValue(s: string): nat
    requires AllDigits(s)
  {
    if |s| == 0 then 0 else DigitsValue(s[..|s| - 1]) * 10 + DigitValue(s[|s| - 1])
  }

  lemma {:induction false} DecimalRoundTrip(n: nat)
    ensures DigitsValue(NatToDecimal(n)) == n
  {
    if n >= 10 {
      var s := NatToDecimal(n);
      assert s[..|s| - 1] == NatToDecimal(n / 10);
      DecimalRoundTrip(n / 10);
    }
  }

  /** strconv.Itoa. */
  function Itoa(i: int): (s: string)
    ensures |s| >= 1
    ensures s[0] == '-' <==> i < 0
  {
    if i < 0 then "-" + NatToDecimal(-i) else NatToDecimal(i)
  }

  /** The syntax strconv.Atoi accepts: an optional sign followed by one or more ASCII digits. */
  predicate IsNumeral(s: string) {
    var body := if |s| > 0 && (s[0] == '+' || s[0] == '-') then s[1..] else s;
    |body| > 0 && AllDigits(body)
  }

  /** strconv.Atoi: a numeral whose value fits the 64-bit `int`, otherwise an error. */
  function Atoi(s: string): (r: Result<int>)
    ensures r.Ok? ==> IsNumeral(s) && MinInt64 <= r.value <= MaxInt64
    ensures !IsNumeral(s) ==> r.Err?
  {
    var signed := |s| > 0 && (s[0] == '+' || s[0] == '-');
    var body := if signed then s[1..] else s;
    if |body| == 0 || !AllDigits(body) then Err("strconv.Atoi: invalid syntax")
    else
      var v: int := if signed && s[0] == '-' then -(DigitsValue(body) as int) else DigitsValue(body);
      if v < MinInt64 || v > MaxInt64 then Err("strconv.Atoi: value out of range") else Ok(v)
  }

  /** Atoi reads back every 64-bit integer Itoa writes. */
  lemma AtoiItoa(i: int)
    requires MinInt64 <= i <= MaxInt64
    ensures Atoi(Itoa(i)) == Ok(i)
  {
    var s := Itoa(i);
    if i < 0 {
      var d := NatToDecimal(-i);
      assert s == "-" + d && s[0] == '-' && s[1..] == d;
      DecimalRoundTrip(-i);
      assert DigitsValue(d) == -i;
    } else {
      var d := NatToDecimal(i);
      assert s == d && IsDigit(s[0]);
      DecimalRoundTrip(i);
    }
  }
}

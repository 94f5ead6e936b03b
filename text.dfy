/** The string operations of the Python runtime that the agent relies on:
    `str.strip()`, literal substring search, `"sep".join(...)` and `str(int)`. */
module Text {
  import opened Wrappers

  /** Python's `str.isspace()`: the characters `str.strip()` removes. */
  predicate IsSpace(c: char) {
    || ('\t' <= c <= '\r')
    || ('\U{1C}' <= c <= '\U{1F}')
    || c == ' ' || c == '\U{85}' || c == '\U{A0}' || c == '\U{1680}'
    || ('\U{2000}' <= c <= '\U{200A}')
    || c == '\U{2028}' || c == '\U{2029}' || c == '\U{202F}' || c == '\U{205F}' || c == '\U{3000}'
  }

  predicate AllSpace(s: string) {
    forall k :: 0 <= k < |s| ==> IsSpace(s[k])
  }

  /** `s.lstrip()`. */
  function TrimFront(s: string): (r: string)
    ensures |r| <= |s|
    decreases |s|
  {
    if s != [] && IsSpace(s[0]) then TrimFront(s[1..]) else s
  }

  /** `s.rstrip()`. */
  function TrimBack(s: string): (r: string)
    ensures |r| <= |s|
    decreases |s|
  {
    if s != [] && IsSpace(s[|s| - 1]) then TrimBack(s[..|s| - 1]) else s
  }

  /** Python's `s.strip()`: `s` without its leading and trailing whitespace. */
  function Strip(s: string): string {
    TrimBack(TrimFront(s))
  }

  /** `s.lstrip()` is a suffix of `s` after whitespace only, and does not
      start with whitespace. */
  lemma {:induction false} TrimFrontMeaning(s: string)
    ensures var r := TrimFront(s);
      && |r| <= |s| && r == s[|s| - |r|..] && AllSpace(s[..|s| - |r|])
      && (r == [] || !IsSpace(r[0]))
    decreases |s|
  {
    if s != [] && IsSpace(s[0]) {
      TrimFrontMeaning(s[1..]);
      var r := TrimFront(s[1..]);
      assert TrimFront(s) == r;
      assert s[1..][|s| - 1 - |r|..] == s[|s| - |r|..];
      assert s[..|s| - |r|] == [s[0]] + s[1..][..|s| - 1 - |r|];
    }
  }

  /** `s.rstrip()` is a prefix of `s` before whitespace only, and does not
      end with whitespace. */
  lemma {:induction false} TrimBackMeaning(s: string)
    ensures var r := TrimBack(s);
      && |r| <= |s| && r == s[..|r|] && AllSpace(s[|r|..])
      && (r == [] || !IsSpace(r[|r| - 1]))
    decreases |s|
  {
    if s != [] && IsSpace(s[|s| - 1]) {
      var t := s[..|s| - 1];
      TrimBackMeaning(t);
      var r := TrimBack(s);
      assert t[..|r|] == s[..|r|];
      assert s[|r|..] == t[|r|..] + [s[|s| - 1]];
    }
  }

  /** `s.strip()` is the slice of `s` that starts where `s.lstrip()` does. */
  lemma StripSlice(s: string)
    ensures var r, i := Strip(s), |s| - |TrimFront(s)|;
      i + |r| <= |s| && r == s[i..i + |r|] && s[i + |r|..] == TrimFront(s)[|r|..]
  {
    var t := TrimFront(s);
    TrimFrontMeaning(s);
    TrimBackMeaning(t);
  }

  /** `s.strip()` is the slice of `s` between a whitespace prefix and a
      whitespace suffix, and it neither starts nor ends with whitespace. */
  lemma StripMeaning(s: string)
    ensures var r, i := Strip(s), |s| - |TrimFront(s)|;
      && i + |r| <= |s|
      && r == s[i..i + |r|]
      && AllSpace(s[..i])
      && AllSpace(s[i + |r|..])
      && (r == [] || (!IsSpace(r[0]) && !IsSpace(r[|r| - 1])))
  {
    var t := TrimFront(s);
    TrimFrontMeaning(s);
    TrimBackMeaning(t);
    StripSlice(s);
    var r := Strip(s);
    assert r != [] ==> r[0] == t[0];
  }

  /** Stripping twice is stripping once. */
  lemma StripIdempotent(s: string)
    ensures Strip(Strip(s)) == Strip(s)
  {
    var r := Strip(s);
    StripMeaning(s);
    assert TrimFront(r) == r;
    assert TrimBack(r) == r;
  }

  /** Text consisting only of whitespace strips to the empty string. */
  lemma {:induction false} StripAllSpace(s: string)
    requires AllSpace(s)
    ensures Strip(s) == ""
    decreases |s|
  {
    if s != [] {
      StripAllSpace(s[1..]);
    }
  }

  /** `pat` occurs in `s` at index `i`, compared character by character. */
  predicate OccursAt(pat: string, s: string, i: nat)
    ensures OccursAt(pat, s, i) ==> i + |pat| <= |s|
    decreases |pat|
  {
    if pat == [] then i <= |s| else i < |s| && s[i] == pat[0] && OccursAt(pat[1..], s, i + 1)
  }

  /** The occurrence is the slice `s[i..i + |pat|]`. */
  lemma {:induction false} OccursAtSlice(pat: string, s: string, i: nat)
    ensures OccursAt(pat, s, i) <==> i + |pat| <= |s| && s[i..i + |pat|] == pat
    decreases |pat|
  {
    if pat != [] {
      OccursAtSlice(pat[1..], s, i + 1);
      if i + |pat| <= |s| {
        assert s[i..i + |pat|] == [s[i]] + s[i + 1..i + |pat|];
      }
    }
  }

  /** `pat` occurs in `s` at no index in `[i, j)`. */
  predicate NoneIn(pat: string, s: string, i: nat, j: nat) {
    forall q: nat :: i <= q < j ==> !OccursAt(pat, s, q)
  }

  /** `s.find(pat, i)`: the leftmost occurrence of `pat` at or after `i`. */
  function FindFrom(pat: string, s: string, i: nat): (r: Option<nat>)
    ensures r.Some? ==> i <= r.value && OccursAt(pat, s, r.value) && NoneIn(pat, s, i, r.value)
    ensures r.None? ==> forall q: nat :: i <= q ==> !OccursAt(pat, s, q)
    decreases |s| - i
  {
    if i + |pat| > |s| then None
    else if OccursAt(pat, s, i) then Some(i)
    else FindFrom(pat, s, i + 1)
  }

  /** The leftmost occurrence is the only one with nothing before it. */
  lemma FindFromLeftmost(pat: string, s: string, i: nat, k: nat)
    requires i <= k && OccursAt(pat, s, k) && NoneIn(pat, s, i, k)
    ensures FindFrom(pat, s, i) == Some(k)
  {
  }

  predicate StartsWith(s: string, prefix: string) {
    |prefix| <= |s| && s[..|prefix|] == prefix
  }

  lemma StartsWithConcat(p: string, t: string)
    ensures StartsWith(p + t, p)
  {
    assert (p + t)[..|p|] == p;
  }

  lemma StartsWithExtend(s: string, p: string, t: string)
    requires StartsWith(s, p)
    ensures StartsWith(s + t, p)
  {
    assert (s + t)[..|p|] == s[..|p|];
  }

  /** `sep.join(xs)`. */
  function Join(sep: string, xs: seq<string>): string {
    if |xs| == 0 then ""
    else if |xs| == 1 then xs[0]
    else xs[0] + sep + Join(sep, xs[1..])
  }

  predicate IsDigit(c: char) {
    '0' <= c <= '9'
  }

  function DigitChar(d: nat): (c: char)
    requires d < 10
    ensures IsDigit(c)
  {
    "0123456789"[d]
  }

  /** `str(n)` for a natural number: its decimal digits, most significant first. */
  function NatText(n: nat): (r: string)
    ensures |r| >= 1
    ensures forall k :: 0 <= k < |r| ==> IsDigit(r[k])
    ensures (|r| == 1) == (n < 10)
  {
    if n < 10 then [DigitChar(n)] else NatText(n / 10) + [DigitChar(n % 10)]
  }

  lemma DigitCharInjective(a: nat, b: nat)
    requires a < 10 && b < 10
    ensures DigitChar(a) == DigitChar(b) ==> a == b
  {
  }

  /** Distinct numbers print differently. */
  lemma {:induction false} NatTextInjective(a: nat, b: nat)
    ensures NatText(a) == NatText(b) <==> a == b
  {
    if NatText(a) == NatText(b) && a >= 10 && b >= 10 {
      var ta, tb := NatText(a), NatText(b);
      assert ta[..|ta| - 1] == NatText(a / 10);
      assert tb[..|tb| - 1] == NatText(b / 10);
      NatTextInjective(a / 10, b / 10);
      DigitCharInjective(a % 10, b % 10);
    } else if NatText(a) == NatText(b) && a < 10 && b < 10 {
      DigitCharInjective(a, b);
    }
  }

  /** `str(n)` for any integer. */
  function IntText(n: int): string {
    if n < 0 then "-" + NatText(-n) else NatText(n)
  }
}

/** String primitives shared by the whole model: Python's `str.strip()`,
    `str.lower()` (ASCII letters only), substring search, `sep.join(...)`,
    `str(int)` and list slicing `xs[:n]`. */
module Text {
  import opened Wrappers

  /** Python's `str.isspace()`: every code point that `strip()` removes. */
  predicate IsSpace(c: char) {
    c == ' ' || ('\t' <= c <= '\r') || ('\U{1C}' <= c <= '\U{1F}')
    || c == '\U{85}' || c == '\U{A0}' || c == '\U{1680}' || ('\U{2000}' <= c <= '\U{200A}')
    || c == '\U{2028}' || c == '\U{2029}' || c == '\U{202F}' || c == '\U{205F}' || c == '\U{3000}'
  }

  predicate AllSpace(s: string) {
    forall i :: 0 <= i < |s| ==> IsSpace(s[i])
  }

  /** `s.lstrip()` */
  function TrimStart(s: string): (r: string)
    ensures |r| <= |s| && r == s[|s| - |r|..]
    ensures r == [] || !IsSpace(r[0])
    ensures AllSpace(s[..|s| - |r|])
  {
    if s != [] && IsSpace(s[0]) then TrimStart(s[1..]) else s
  }

  /** `s.rstrip()` */
  function TrimEnd(s: string): (r: string)
    ensures |r| <= |s| && r == s[..|r|]
    ensures r == [] || !IsSpace(r[|r| - 1])
    ensures AllSpace(s[|r|..])
  {
    if s != [] && IsSpace(s[|s| - 1]) then
      var r := TrimEnd(s[..|s| - 1]);
      assert s[|r|..] == s[..|s| - 1][|r|..] + [s[|s| - 1]];
      r
    else s
  }

  /** `s.strip()`: the slice of `s` that neither starts nor ends with
      whitespace. */
  function Strip(s: string): (r: string)
    ensures |r| <= |s|
    ensures r == [] || (!IsSpace(r[0]) && !IsSpace(r[|r| - 1]))
  {
    TrimEnd(TrimStart(s))
  }

  /** `s.strip()` is empty exactly when `s` is whitespace only. */
  lemma StripEmptyIff(s: string)
    ensures Strip(s) == [] <==> AllSpace(s)
  {
    var t := TrimStart(s);
    assert s == s[..|s| - |t|] + t;
    if Strip(s) == [] {
      assert t[0..] == t;
    }
  }

  lemma StripOfStripped(s: string)
    requires s == [] || (!IsSpace(s[0]) && !IsSpace(s[|s| - 1]))
    ensures Strip(s) == s
  {
  }

  /** One leading space before stripped text is all that `strip()` removes. */
  lemma StripLeadingSpace(c: char, s: string)
    requires IsSpace(c) && s != [] && !IsSpace(s[0]) && !IsSpace(s[|s| - 1])
    ensures Strip([c] + s) == s
  {
    var t := [c] + s;
    assert t[0] == c && t[1..] == s;
    assert TrimStart(t) == s;
    assert TrimEnd(s) == s;
  }

  /** Leading whitespace before stripped text is all that `strip()`
      removes. */
  lemma {:induction false} StripLeadingSpaces(p: string, s: string)
    requires AllSpace(p) && s != [] && !IsSpace(s[0]) && !IsSpace(s[|s| - 1])
    ensures Strip(p + s) == s
  {
    if p == [] {
      assert p + s == s;
      StripOfStripped(s);
    } else {
      var t := p + s;
      assert t[0] == p[0] && t[1..] == p[1..] + s;
      StripLeadingSpaces(p[1..], s);
    }
  }

  /** Python's `c.lower()` on ASCII letters; other code points are left as is. */
  function LowerChar(c: char): char {
    if 'A' <= c <= 'Z' then (c as int + 32) as char else c
  }

  function Lower(s: string): (r: string)
    ensures |r| == |s|
    ensures forall i :: 0 <= i < |s| ==> r[i] == LowerChar(s[i])
  {
    if s == [] then [] else [LowerChar(s[0])] + Lower(s[1..])
  }

  /** Python's `sub in s`. */
  predicate Contains(s: string, sub: string) {
    sub <= s || (s != [] && Contains(s[1..], sub))
  }

  /** A text in which the first character of `sub` never occurs does not
      contain `sub`. */
  lemma {:induction false} NotContainsFirst(s: string, sub: string)
    requires sub != []
    requires forall i :: 0 <= i < |s| ==> s[i] != sub[0]
    ensures !Contains(s, sub)
  {
    if s != [] {
      assert s[0] != sub[0] && !(sub <= s);
      assert forall i :: 0 <= i < |s[1..]| ==> s[1..][i] != sub[0];
      NotContainsFirst(s[1..], sub);
    }
  }

  /** No keyword occurs in `s` when none of their first characters does. */
  lemma NoneContained(s: string, kws: seq<string>)
    requires forall k :: 0 <= k < |kws| ==> kws[k] != [] && kws[k][0] !in s
    ensures !ContainsAny(s, kws)
  {
    forall k | 0 <= k < |kws| ensures !Contains(s, kws[k]) {
      NotContainsFirst(s, kws[k]);
    }
  }

  /** Any of the keywords occurs in `s` (`any(kw in s for kw in kws)`). */
  predicate ContainsAny(s: string, kws: seq<string>) {
    exists k :: 0 <= k < |kws| && Contains(s, kws[k])
  }

  lemma ContainsAt(s: string, sub: string, i: nat)
    requires i + |sub| <= |s| && s[i..i + |sub|] == sub
    ensures Contains(s, sub)
  {
    if i > 0 {
      assert s[1..][i - 1..i - 1 + |sub|] == sub;
      ContainsAt(s[1..], sub, i - 1);
    }
  }

  lemma ContainsInfix(a: string, sub: string, b: string)
    ensures Contains(a + sub + b, sub)
  {
    assert (a + sub + b)[|a|..|a| + |sub|] == sub;
    ContainsAt(a + sub + b, sub, |a|);
  }

  /** Lowercasing twice is lowercasing once. */
  lemma LowerIdempotent(s: string)
    ensures Lower(Lower(s)) == Lower(s)
  {
    var l := Lower(s);
    assert forall i :: 0 <= i < |l| ==> LowerChar(l[i]) == l[i];
  }

  /** Lowercasing leaves text without ASCII capitals unchanged. */
  lemma LowerNoCapitals(s: string)
    requires forall i :: 0 <= i < |s| ==> !('A' <= s[i] <= 'Z')
    ensures Lower(s) == s
  {
  }

  /** `pat` occurs in `s` at `i`. */
  predicate OccursAt(s: string, pat: string, i: nat) {
    i + |pat| <= |s| && s[i..i + |pat|] == pat
  }

  /** The first index at or after `from` where `pat` occurs (`s.find(pat, from)`). */
  function IndexOf(s: string, pat: string, from: nat): (r: Option<nat>)
    requires pat != []
    ensures r.Some? ==> from <= r.value && OccursAt(s, pat, r.value)
    ensures r.Some? ==> forall i :: from <= i < r.value ==> !OccursAt(s, pat, i)
    ensures r.None? ==> forall i :: from <= i ==> !OccursAt(s, pat, i)
    decreases |s| - from
  {
    if from + |pat| > |s| then None
    else if OccursAt(s, pat, from) then Some(from)
    else IndexOf(s, pat, from + 1)
  }

  /** The occurrence found is the first one. */
  lemma IndexOfFirst(s: string, pat: string, from: nat, q: nat)
    requires pat != [] && from <= q && OccursAt(s, pat, q)
    requires forall i :: from <= i < q ==> !OccursAt(s, pat, i)
    ensures IndexOf(s, pat, from) == Some(q)
  {
  }

  /** The end of the whitespace run starting at `from`. */
  function SkipSpace(s: string, from: nat): (r: nat)
    requires from <= |s|
    ensures from <= r <= |s| && AllSpace(s[from..r]) && (r == |s| || !IsSpace(s[r]))
    decreases |s| - from
  {
    if from < |s| && IsSpace(s[from]) then SkipSpace(s, from + 1) else from
  }

  /** `sep.join(parts)` */
  function Join(parts: seq<string>, sep: string): string {
    if parts == [] then ""
    else if |parts| == 1 then parts[0]
    else parts[0] + sep + Join(parts[1..], sep)
  }

  lemma JoinSnoc(parts: seq<string>, last: string, sep: string)
    ensures Join(parts + [last], sep) == if parts == [] then last else Join(parts, sep) + sep + last
  {
    if |parts| > 1 {
      assert (parts + [last])[1..] == parts[1..] + [last];
      JoinSnoc(parts[1..], last, sep);
    } else if |parts| == 1 {
      assert (parts + [last])[1..] == [last];
    }
  }

  /** `s or '-'` on a string: an empty text shown as a dash. */
  function OrDash(s: string): (r: string)
    ensures r != [] && (s != [] ==> r == s)
  {
    if s == [] then "-" else s
  }

  /** `xs[:n]` for a non-negative `n`. */
  function Take<T>(xs: seq<T>, n: nat): (r: seq<T>)
    ensures |r| <= n && r <= xs
    ensures |xs| <= n ==> r == xs
  {
    if |xs| <= n then xs else xs[..n]
  }

  /** `xs[:n]` for any integer `n`: a negative bound counts from the end. */
  function SlicePrefix<T>(xs: seq<T>, n: int): (r: seq<T>)
    ensures r <= xs
    ensures n >= 0 ==> r == Take(xs, n)
    ensures n < 0 ==> |r| == if |xs| + n < 0 then 0 else |xs| + n
  {
    if n >= 0 then Take(xs, n)
    else if |xs| + n < 0 then []
    else xs[..|xs| + n]
  }

  function DigitChar(d: nat): char
    requires d < 10
  {
    ('0' as int + d) as char
  }

  /** `str(n)` for a natural number, in decimal. */
  function NatToString(n: nat): (r: string)
    ensures r != []
    ensures forall i :: 0 <= i < |r| ==> '0' <= r[i] <= '9'
  {
    if n < 10 then [DigitChar(n)] else NatToString(n / 10) + [DigitChar(n % 10)]
  }

  /** `str(i)` for any integer. */
  function IntToString(i: int): string {
    if i < 0 then "-" + NatToString(-i) else NatToString(i)
  }
}

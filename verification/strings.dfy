/** The few functions of Go's `strings` and `strconv` packages the bot relies on. */
module Strings {

  predicate HasPrefix(s: string, prefix: string) {
    |prefix| <= |s| && s[..|prefix|] == prefix
  }

  /** `sub` occurs in `s` at position `k`. */
  predicate OccursAt(s: string, sub: string, k: int) {
    0 <= k && k + |sub| <= |s| && s[k..k + |sub|] == sub
  }

  /** `strings.Index`: the first position where `sub` occurs in `s`, or -1. */
  function Index(s: string, sub: string): (r: int)
    ensures r == -1 || OccursAt(s, sub, r)
    ensures forall k :: (r < 0 || k < r) ==> !OccursAt(s, sub, k)
  {
    IndexFrom(s, sub, 0)
  }

  function IndexFrom(s: string, sub: string, i: nat): (r: int)
    requires i <= |s| + 1
    ensures r == -1 || (i <= r && OccursAt(s, sub, r))
    ensures forall k :: i <= k && (r < 0 || k < r) ==> !OccursAt(s, sub, k)
    decreases |s| + 1 - i
  {
    if i + |sub| > |s| then -1
    else if s[i..i + |sub|] == sub then i
    else IndexFrom(s, sub, i + 1)
  }

  /** `strings.Replace(s, old, new, 1)`. */
  function ReplaceFirst(s: string, pattern: string, replacement: string): string {
    if pattern == [] then replacement + s
    else
      var i := Index(s, pattern);
      if i < 0 then s else s[..i] + replacement + s[i + |pattern|..]
  }

  /** Removing the first occurrence of a prefix drops exactly that prefix. */
  lemma ReplacePrefix(s: string, prefix: string)
    requires prefix != [] && HasPrefix(s, prefix)
    ensures ReplaceFirst(s, prefix, "") == s[|prefix|..]
  {
    assert OccursAt(s, prefix, 0);
  }

  /** `strings.TrimLeft(s, cutset)` for a one-character cutset. */
  function TrimLeft(s: string, c: char): (r: string)
    ensures |r| <= |s| && r == s[|s| - |r|..]
    ensures r == [] || r[0] != c
    ensures forall i :: 0 <= i < |s| - |r| ==> s[i] == c
  {
    if s != [] && s[0] == c then
      var r := TrimLeft(s[1..], c);
      assert s[1..][|s| - 1 - |r|..] == s[|s| - |r|..];
      assert forall i :: 1 <= i < |s| - |r| ==> s[i] == s[1..][i - 1];
      r
    else s
  }

  /** `strings.TrimRight(s, cutset)` for a one-character cutset. */
  function TrimRight(s: string, c: char): (r: string)
    ensures |r| <= |s| && r == s[..|r|]
    ensures r == [] || r[|r| - 1] != c
    ensures forall i :: |r| <= i < |s| ==> s[i] == c
  {
    if s != [] && s[|s| - 1] == c then
      var r := TrimRight(s[..|s| - 1], c);
      assert s[..|s| - 1][..|r|] == s[..|r|];
      assert forall i :: |r| <= i < |s| - 1 ==> s[i] == s[..|s| - 1][i];
      r
    else s
  }

  /** `r` is `s[i..j]` and only `c` was cut off at either end. */
  predicate CutAt(s: string, c: char, r: string, i: int, j: int) {
    && 0 <= i <= j <= |s| && r == s[i..j]
    && (forall k :: 0 <= k < i ==> s[k] == c)
    && (forall k :: j <= k < |s| ==> s[k] == c)
  }

  /** `strings.Trim(s, cutset)` for a one-character cutset: `s` with every
      leading and trailing `c` removed. */
  function Trim(s: string, c: char): (r: string)
    ensures exists i, j :: CutAt(s, c, r, i, j)
    ensures r == [] || (r[0] != c && r[|r| - 1] != c)
  {
    var l := TrimLeft(s, c);
    var r := TrimRight(l, c);
    var i := |s| - |l|;
    assert r == s[i..i + |r|];
    assert forall k :: i + |r| <= k < |s| ==> s[k] == c by {
      forall k | i + |r| <= k < |s| ensures s[k] == c { assert s[k] == l[k - i]; }
    }
    assert CutAt(s, c, r, i, i + |r|);
    r
  }

  predicate IsUpper(ch: char) { 'A' <= ch <= 'Z' }

  function LowerChar(ch: char): char {
    if IsUpper(ch) then (ch as int + 32) as char else ch
  }

  /** `strings.ToLower`, on the ASCII letters (see the README for the rest of Unicode). */
  function ToLower(s: string): (r: string)
    ensures |r| == |s|
    ensures forall i :: 0 <= i < |s| ==> r[i] == LowerChar(s[i])
  {
    if s == [] then [] else [LowerChar(s[0])] + ToLower(s[1..])
  }

  /** `strings.Replace(s, string(c), "", -1)`: every `c` removed, the rest kept in order. */
  function RemoveAll(s: string, c: char): (r: string)
    ensures c !in r
    ensures multiset(r) == multiset(s)[c := 0]
    ensures |r| == |s| - multiset(s)[c]
    ensures c !in s ==> r == s
    decreases |s|
  {
    if s == [] then []
    else
      assert s == s[..|s| - 1] + [s[|s| - 1]];
      if s[|s| - 1] == c then RemoveAll(s[..|s| - 1], c)
      else RemoveAll(s[..|s| - 1], c) + [s[|s| - 1]]
  }

  /** A single character is dropped when it is `c` and kept otherwise; with
      `RemoveAllAppend` this fixes the order of what remains. */
  lemma RemoveAllOne(x: char, c: char)
    ensures RemoveAll([x], c) == if x == c then [] else [x]
  {
    assert [x][..0] == [];
  }

  lemma {:induction false} RemoveAllAppend(a: string, b: string, c: char)
    ensures RemoveAll(a + b, c) == RemoveAll(a, c) + RemoveAll(b, c)
    decreases |b|
  {
    if b == [] {
      assert a + b == a;
    } else {
      assert (a + b)[..|a + b| - 1] == a + b[..|b| - 1];
      RemoveAllAppend(a, b[..|b| - 1], c);
    }
  }

  predicate IsDecimalDigit(ch: char) { '0' <= ch <= '9' }

  function DigitChar(d: int): (ch: char)
    requires 0 <= d <= 9
    ensures IsDecimalDigit(ch)
  {
    ('0' as int + d) as char
  }

  /** The decimal digits of a natural number, most significant first. */
  function NatToString(n: nat): (s: string)
    ensures s != [] && forall i :: 0 <= i < |s| ==> IsDecimalDigit(s[i])
  {
    if n < 10 then [DigitChar(n)] else NatToString(n / 10) + [DigitChar(n % 10)]
  }

  /** `strconv.Itoa`. */
  function Itoa(n: int): (s: string)
    ensures s != [] && '.' !in s
    ensures n >= 0 ==> forall i :: 0 <= i < |s| ==> IsDecimalDigit(s[i])
    ensures n < 0 <==> s[0] == '-'
  {
    if n < 0 then "-" + NatToString(-n) else NatToString(n)
  }

  /** The number a string of decimal digits denotes. */
  function DecimalValue(s: string): nat
    requires forall i :: 0 <= i < |s| ==> IsDecimalDigit(s[i])
    decreases |s|
  {
    if s == [] then 0
    else
      assert IsDecimalDigit(s[|s| - 1]);
      DecimalValue(s[..|s| - 1]) * 10 + (s[|s| - 1] as int - '0' as int)
  }

  /** The digits denote the number they were made from. */
  lemma {:induction false} NatToStringValue(n: nat)
    ensures DecimalValue(NatToString(n)) == n
  {
    if n >= 10 {
      NatToStringValue(n / 10);
      var s := NatToString(n);
      assert s[..|s| - 1] == NatToString(n / 10);
    }
  }

  /** Different numbers are printed differently. */
  lemma ItoaInjective(a: int, b: int)
    requires Itoa(a) == Itoa(b)
    ensures a == b
  {
    if a < 0 {
      assert Itoa(a)[1..] == NatToString(-a);
      assert Itoa(b)[1..] == NatToString(-b);
      NatToStringValue(-a);
      NatToStringValue(-b);
    } else {
      NatToStringValue(a);
      NatToStringValue(b);
    }
  }

  lemma AppendAssociates<T>(a: seq<T>, b: seq<T>, c: seq<T>)
    ensures a + (b + c) == (a + b) + c
  {
  }

  /** A sequence is what comes before position `k`, the element there, and what follows. */
  lemma SplitAt<T>(s: seq<T>, k: int)
    requires 0 <= k < |s|
    ensures s == s[..k] + ([s[k]] + s[k + 1..])
  {
  }

  /** A text begins with whatever was put in front of it. */
  lemma PrefixOfAppend(prefix: string, rest: string)
    ensures HasPrefix(prefix + rest, prefix)
  {
    assert (prefix + rest)[..|prefix|] == prefix;
  }
}

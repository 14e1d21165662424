/**
 * The few operations of Go's `strings` and `strconv` packages that the
 * tasking code relies on, over Dafny strings. Go compares strings byte by
 * byte in UTF-8, which orders them exactly as their code points, so `LexLe`
 * compares characters.
 */
module Strings {
  import opened Common

  /** Go's `strings.HasPrefix(s, p)`. */
  predicate HasPrefix(s: string, p: string) {
    p <= s
  }

  /** Go's `strings.Contains(s, sub)`. */
  predicate Contains(s: string, sub: string) {
    exists i :: 0 <= i <= |s| - |sub| && OccursAt(s, sub, i)
  }

  predicate OccursAt(s: string, sub: string, i: int)
    requires 0 <= i <= |s| - |sub|
  {
    s[i..i + |sub|] == sub
  }

  /** Go's `strings.TrimPrefix(s, p)`. */
  function TrimPrefix(s: string, p: string): string {
    if p <= s then s[|p|..] else s
  }

  /** `strings.Split(s, string(sep))[0]`: the text before the first `sep`. */
  function FirstSegment(s: string, sep: char): (r: string)
    ensures r <= s && sep !in r
    ensures r == s || s[|r|] == sep
  {
    if s == [] || s[0] == sep then [] else [s[0]] + FirstSegment(s[1..], sep)
  }

  /** `parts[len(parts)-1]` of `strings.Split(s, string(sep))`: the text after the last `sep`. */
  function LastSegment(s: string, sep: char): (r: string)
    ensures sep !in r
    ensures |r| <= |s| && r == s[|s| - |r|..]
    ensures r == s || s[|s| - |r| - 1] == sep
    decreases |s|
  {
    if s == [] || s[|s| - 1] == sep then [] else LastSegment(s[..|s| - 1], sep) + [s[|s| - 1]]
  }

  /** `strings.ReplaceAll` of every character of `cs` by the empty string. */
  function RemoveChars(s: string, cs: set<char>): (r: string)
    ensures forall c :: c in r ==> c in s && c !in cs
    ensures |r| <= |s|
  {
    if s == [] then []
    else (if s[0] in cs then [] else [s[0]]) + RemoveChars(s[1..], cs)
  }

  lemma {:induction false} RemoveCharsConcat(a: string, b: string, cs: set<char>)
    ensures RemoveChars(a + b, cs) == RemoveChars(a, cs) + RemoveChars(b, cs)
  {
    if a == [] {
      assert a + b == b;
    } else {
      var head := if a[0] in cs then [] else [a[0]];
      assert (a + b)[0] == a[0] && (a + b)[1..] == a[1..] + b;
      assert RemoveChars(a + b, cs) == head + RemoveChars(a[1..] + b, cs);
      RemoveCharsConcat(a[1..], b, cs);
      assert RemoveChars(a, cs) == head + RemoveChars(a[1..], cs);
      AppendAssociates(head, RemoveChars(a[1..], cs), RemoveChars(b, cs));
    }
  }

  /** Removing characters that do not occur changes nothing. */
  lemma {:induction false} RemoveCharsAbsent(s: string, cs: set<char>)
    requires forall c :: c in s ==> c !in cs
    ensures RemoveChars(s, cs) == s
  {
    if s != [] {
      RemoveCharsAbsent(s[1..], cs);
    }
  }

  /** A character that is not removed survives. */
  lemma {:induction false} RemoveCharsKeeps(s: string, cs: set<char>, c: char)
    requires c in s && c !in cs
    ensures c in RemoveChars(s, cs)
  {
    if s[0] != c {
      assert c in s[1..];
      RemoveCharsKeeps(s[1..], cs, c);
    }
  }

  /** Removing characters from a string made only of them leaves nothing. */
  lemma {:induction false} RemoveCharsAll(s: string, cs: set<char>)
    requires forall c :: c in s ==> c in cs
    ensures RemoveChars(s, cs) == []
  {
    if s != [] {
      RemoveCharsAll(s[1..], cs);
    }
  }

  /** Two `ReplaceAll` passes remove the union of what each removes. */
  lemma {:induction false} RemoveCharsTwice(s: string, a: set<char>, b: set<char>)
    ensures RemoveChars(RemoveChars(s, a), b) == RemoveChars(s, a + b)
  {
    if s != [] {
      RemoveCharsTwice(s[1..], a, b);
      var head := if s[0] in a then [] else [s[0]];
      RemoveCharsConcat(head, RemoveChars(s[1..], a), b);
    }
  }

  /** Go's `strings.Join(parts, sep)`. */
  function Join(parts: seq<string>, sep: string): string {
    if parts == [] then ""
    else if |parts| == 1 then parts[0]
    else parts[0] + sep + Join(parts[1..], sep)
  }

  /** Go's `strings.Repeat(string(c), n)`. */
  function Repeat(c: char, n: nat): (r: string)
    ensures |r| == n && forall i :: 0 <= i < n ==> r[i] == c
  {
    if n == 0 then "" else [c] + Repeat(c, n - 1)
  }

  /** `n` spaces. */
  function Spaces(n: nat): (r: string)
    ensures |r| == n && forall i :: 0 <= i < n ==> r[i] == ' '
    ensures forall c :: c in r ==> c == ' '
  {
    Repeat(' ', n)
  }

  /** Go's `%-*s`: `s` padded on the right with spaces to `width` characters. */
  function PadRight(s: string, width: int): (r: string)
    ensures |r| == if |s| < width then width else |s|
  {
    if |s| < width then s + Spaces(width - |s|) else s
  }

  /** The padded text starts with `s` and continues with spaces only. */
  lemma PadRightPads(s: string, width: int)
    ensures s <= PadRight(s, width)
    ensures forall i :: |s| <= i < |PadRight(s, width)| ==> PadRight(s, width)[i] == ' '
  {
    if |s| < width {
      var pad := Spaces(width - |s|);
      assert forall i :: |s| <= i < |s| + |pad| ==> (s + pad)[i] == pad[i - |s|];
    }
  }

  /** Removing the same characters twice is removing them once. */
  lemma RemoveCharsIdempotent(s: string, cs: set<char>)
    ensures RemoveChars(RemoveChars(s, cs), cs) == RemoveChars(s, cs)
  {
    RemoveCharsAbsent(RemoveChars(s, cs), cs);
  }

  // ---- decimal conversion (strconv.Itoa and its inverse) ----

  predicate IsDigit(c: char) {
    '0' <= c <= '9'
  }

  function DigitChar(d: nat): (c: char)
    requires d < 10
    ensures IsDigit(c)
  {
    "0123456789"[d]
  }

  function DigitValue(c: char): nat
    requires IsDigit(c)
  {
    (c as int - '0' as int) as nat
  }

  /** The decimal digits of `n`, most significant first, without leading zeros. */
  function NatToString(n: nat): (r: string)
    ensures |r| >= 1
    ensures forall i :: 0 <= i < |r| ==> IsDigit(r[i])
    decreases n
  {
    if n < 10 then [DigitChar(n)] else NatToString(n / 10) + [DigitChar(n % 10)]
  }

  /** Go's `strconv.Itoa`: a leading '-' for negative numbers. */
  function Itoa(n: int): (r: string)
    ensures |r| >= 1
  {
    if n < 0 then "-" + NatToString(-n) else NatToString(n)
  }

  function ParseDigits(s: string): nat
    requires forall i :: 0 <= i < |s| ==> IsDigit(s[i])
    decreases |s|
  {
    if s == [] then 0 else ParseDigits(s[..|s| - 1]) * 10 + DigitValue(s[|s| - 1])
  }

  /** The strings `Atoi` reads: an optional '-' followed by digits. */
  predicate IsDecimal(s: string) {
    (forall i :: 0 < i < |s| ==> IsDigit(s[i])) && (s != [] && s[0] != '-' ==> IsDigit(s[0]))
  }

  /** Go's `strconv.Atoi` on the strings `Itoa` produces. */
  function Atoi(s: string): int
    requires IsDecimal(s)
  {
    if s != [] && s[0] == '-' then -(ParseDigits(s[1..]) as int) else ParseDigits(s)
  }

  lemma {:induction false} ParseNatToString(n: nat)
    ensures ParseDigits(NatToString(n)) == n
    decreases n
  {
    if n >= 10 {
      var s := NatToString(n);
      assert s[..|s| - 1] == NatToString(n / 10);
      ParseNatToString(n / 10);
    }
  }

  /** Decimal printing is injective: `Atoi` recovers the number. */
  lemma ItoaRoundTrip(n: int)
    ensures IsDecimal(Itoa(n)) && Atoi(Itoa(n)) == n
  {
    if n < 0 {
      ParseNatToString(-n);
      NegatedDigits(NatToString(-n));
    } else {
      var t := NatToString(n);
      assert t != [] && IsDigit(t[0]);
      ParseNatToString(n);
    }
  }

  /** A '-' before a run of digits reads back as the digits' value negated. */
  lemma NegatedDigits(t: string)
    requires forall i :: 0 <= i < |t| ==> IsDigit(t[i])
    ensures IsDecimal("-" + t) && Atoi("-" + t) == -(ParseDigits(t) as int)
  {
    var s := "-" + t;
    assert s[1..] == t;
    forall i | 0 < i < |s|
      ensures IsDigit(s[i])
    {
      assert s[i] == t[i - 1];
    }
  }

  // ---- Go's string order ----

  /** `a <= b` on Go strings: lexicographic by character. */
  predicate LexLe(a: string, b: string)
    decreases |a|
  {
    a == [] || (b != [] && (a[0] < b[0] || (a[0] == b[0] && LexLe(a[1..], b[1..]))))
  }

  lemma {:induction false} LexLeReflexive(a: string)
    ensures LexLe(a, a)
    decreases |a|
  {
    if a != [] {
      LexLeReflexive(a[1..]);
    }
  }

  lemma {:induction false} LexLeAntisymmetric(a: string, b: string)
    requires LexLe(a, b) && LexLe(b, a)
    ensures a == b
    decreases |a|
  {
    if a != [] {
      LexLeAntisymmetric(a[1..], b[1..]);
      assert a == [a[0]] + a[1..] && b == [b[0]] + b[1..];
    }
  }

  lemma {:induction false} LexLeTransitive(a: string, b: string, c: string)
    requires LexLe(a, b) && LexLe(b, c)
    ensures LexLe(a, c)
    decreases |a|
  {
    if a != [] && a[0] == b[0] && b[0] == c[0] {
      LexLeTransitive(a[1..], b[1..], c[1..]);
    }
  }

  lemma {:induction false} LexLeTotal(a: string, b: string)
    ensures LexLe(a, b) || LexLe(b, a)
    decreases |a|
  {
    if a != [] && b != [] && a[0] == b[0] {
      LexLeTotal(a[1..], b[1..]);
    }
  }

  /** `LexLe` is a total order on strings, stated for every triple at once. */
  lemma LexLeTotalOrder()
    ensures forall a :: LexLe(a, a)
    ensures forall a, b :: LexLe(a, b) && LexLe(b, a) ==> a == b
    ensures forall a, b, c :: LexLe(a, b) && LexLe(b, c) ==> LexLe(a, c)
    ensures forall a, b :: LexLe(a, b) || LexLe(b, a)
  {
    forall a ensures LexLe(a, a) { LexLeReflexive(a); }
    forall a, b | LexLe(a, b) && LexLe(b, a) ensures a == b { LexLeAntisymmetric(a, b); }
    forall a, b, c | LexLe(a, b) && LexLe(b, c) ensures LexLe(a, c) { LexLeTransitive(a, b, c); }
    forall a, b ensures LexLe(a, b) || LexLe(b, a) { LexLeTotal(a, b); }
  }
}

/** Decimal text of unsigned numbers: what std::to_string writes into Redis keys
    and fields, and what ParseUint64 reads back. */
module Decimal {
  import opened Options

  predicate IsDigit(c: char) {
    '0' <= c <= '9'
  }

  function DigitChar(d: nat): (c: char)
    requires d < 10
    ensures IsDigit(c)
  {
    '0' + d as char
  }

  function DigitValue(c: char): (d: nat)
    requires IsDigit(c)
    ensures d < 10
  {
    (c - '0') as nat
  }

  /** std::to_string on an unsigned integer. */
  function ToString(n: nat): (s: string)
    ensures |s| > 0 && forall i :: 0 <= i < |s| ==> IsDigit(s[i])
  {
    if n < 10 then [DigitChar(n)] else ToString(n / 10) + [DigitChar(n % 10)]
  }

  /** ParseUint64: empty text and text with a non-digit are rejected. */
  function Parse(s: string): Option<nat> {
    if |s| == 0 then None
    else if !IsDigit(s[|s| - 1]) then None
    else if |s| == 1 then Some(DigitValue(s[0]))
    else match Parse(s[..|s| - 1])
      case None => None
      case Some(n) => Some(10 * n + DigitValue(s[|s| - 1]))
  }

  lemma {:induction false} ParseToString(n: nat)
    ensures Parse(ToString(n)) == Some(n)
  {
    if n >= 10 {
      ParseToString(n / 10);
      var s := ToString(n);
      assert s[..|s| - 1] == ToString(n / 10);
    }
  }

  function Power10(k: nat): nat {
    if k == 0 then 1 else 10 * Power10(k - 1)
  }

  /** What a row of digits stands for, highest first. */
  function Weighted(s: string): nat
    requires forall i :: 0 <= i < |s| ==> IsDigit(s[i])
  {
    if s == [] then 0 else assert IsDigit(s[0]); (s[0] - '0') as nat * Power10(|s| - 1) + Weighted(s[1..])
  }

  lemma TenTimes(d: nat, p: nat, w: nat)
    ensures d * (10 * p) + 10 * w == 10 * (d * p + w)
  {
  }

  lemma {:induction false} WeightedSnoc(s: string, c: char)
    requires IsDigit(c) && forall i :: 0 <= i < |s| ==> IsDigit(s[i])
    ensures Weighted(s + [c]) == 10 * Weighted(s) + (c - '0') as nat
  {
    var t := s + [c];
    if s == [] {
      assert t == [c] && t[1..] == [];
    } else {
      var d, p := (s[0] - '0') as nat, Power10(|s| - 1);
      WeightedSnoc(s[1..], c);
      assert t[1..] == s[1..] + [c] && t[0] == s[0] && |t| - 1 == |s|;
      assert Power10(|s|) == 10 * p;
      assert Weighted(t) == d * (10 * p) + Weighted(s[1..] + [c]);
      TenTimes(d, p, Weighted(s[1..]));
    }
  }

  /** The text has the highest digit first and no leading zero. */
  lemma {:induction false} HighestFirst(n: nat)
    ensures Weighted(ToString(n)) == n && (n > 0 ==> ToString(n)[0] != '0')
  {
    if n < 10 {
      WeightedSnoc([], DigitChar(n));
      assert [] + [DigitChar(n)] == ToString(n);
    } else {
      HighestFirst(n / 10);
      WeightedSnoc(ToString(n / 10), DigitChar(n % 10));
    }
  }

  predicate AllDigits(s: string) {
    s != [] && forall i :: 0 <= i < |s| ==> IsDigit(s[i])
  }

  /** Exactly the non-empty rows of digits are read, as the numbers they stand for. */
  lemma {:induction false} ParseExactly(s: string)
    ensures Parse(s).Some? <==> AllDigits(s)
    ensures AllDigits(s) ==> Parse(s).value == Weighted(s)
  {
    if s != [] {
      var n := |s| - 1;
      assert s == s[..n] + [s[n]];
      if n == 0 {
        if IsDigit(s[0]) { WeightedSnoc([], s[0]); }
      } else {
        ParseExactly(s[..n]);
        if AllDigits(s) { WeightedSnoc(s[..n], s[n]); }
      }
    }
  }

  lemma ToStringInjective(a: nat, b: nat)
    requires ToString(a) == ToString(b)
    ensures a == b
  {
    ParseToString(a);
    ParseToString(b);
  }

  /** A separator that is no digit splits the text in one way only, whatever follows it. */
  lemma PrefixInjective(a: nat, b: nat, sep: char, x: string, y: string)
    requires !IsDigit(sep)
    requires ToString(a) + [sep] + x == ToString(b) + [sep] + y
    ensures a == b && x == y
  {
    var s, t := ToString(a) + [sep] + x, ToString(b) + [sep] + y;
    var m, n := |ToString(a)|, |ToString(b)|;
    assert s[m] == sep && t[n] == sep;
    assert m == n;
    assert ToString(a) == s[..m] && ToString(b) == t[..n];
    assert x == s[m + 1..] && y == t[n + 1..];
    ToStringInjective(a, b);
  }

  /** The same for a number at the end of the text, after the last separator. */
  lemma SuffixInjective(a: nat, b: nat, sep: char, x: string, y: string)
    requires !IsDigit(sep)
    requires x + [sep] + ToString(a) == y + [sep] + ToString(b)
    ensures a == b && x == y
  {
    var s, t := x + [sep] + ToString(a), y + [sep] + ToString(b);
    var m, n := |x|, |y|;
    assert s[m] == sep && t[n] == sep;
    assert m == n;
    assert x == s[..m] && y == t[..n];
    assert ToString(a) == s[m + 1..] && ToString(b) == t[n + 1..];
    ToStringInjective(a, b);
  }
}

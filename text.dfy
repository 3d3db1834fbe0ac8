/** String facts the notice text is stated with: where a piece occurs in a
    text, decimal rendering of whole numbers, and cutting a text at a separator. */
module Text {
  import opened NoticeTypes

  /** `p` occurs in `s` starting at index `i`. */
  predicate ContainsAt(s: string, p: string, i: int) {
    0 <= i && i + |p| <= |s| && s[i..i + |p|] == p
  }

  ghost predicate Occurs(s: string, p: string) {
    exists i :: ContainsAt(s, p, i)
  }

  lemma ContainsMiddle(a: string, p: string, b: string)
    ensures ContainsAt(a + p + b, p, |a|)
  {
    assert (a + p + b)[|a|..|a| + |p|] == p;
  }

  /** An occurrence of `q + r` contains an occurrence of `r` right after `q`. */
  lemma ContainsTail(s: string, q: string, r: string, i: int)
    requires ContainsAt(s, q + r, i)
    ensures ContainsAt(s, r, i + |q|)
  {
    assert s[i + |q|..i + |q| + |r|] == s[i..i + |q| + |r|][|q|..];
  }

  /** `s` is `pre`, then something, then `suf`. */
  predicate Framed(s: string, pre: string, suf: string) {
    |pre| + |suf| <= |s| && s[..|pre|] == pre && s[|s| - |suf|..] == suf
  }

  /** What stands between `pre` and `suf` in a framed text. */
  function Unframe(s: string, pre: string, suf: string): string
    requires Framed(s, pre, suf)
  {
    s[|pre|..|s| - |suf|]
  }

  lemma FramedRoundTrip(pre: string, x: string, suf: string)
    ensures Framed(pre + x + suf, pre, suf)
    ensures Unframe(pre + x + suf, pre, suf) == x
  {
    var s := pre + x + suf;
    assert s[..|pre|] == pre;
    assert s[|s| - |suf|..] == suf;
    assert s[|pre|..|s| - |suf|] == x;
  }

  /** A text that differs from `pre` at index `k` is not framed by `pre`. */
  lemma NotFramedAt(s: string, pre: string, suf: string, k: nat)
    requires k < |pre| && k < |s| && s[k] != pre[k]
    ensures !Framed(s, pre, suf)
  {
  }

  function DigitChar(d: int): char
    requires 0 <= d < 10
  {
    ('0' as int + d) as char
  }

  predicate IsDigit(c: char) {
    '0' <= c <= '9'
  }

  function DigitValue(c: char): int
    requires IsDigit(c)
  {
    c as int - '0' as int
  }

  /** The decimal rendering of a whole number, as a template literal renders it. */
  function Decimal(n: nat): (s: string)
    ensures |s| >= 1
    ensures forall k :: 0 <= k < |s| ==> IsDigit(s[k])
  {
    if n < 10 then [DigitChar(n)] else Decimal(n / 10) + [DigitChar(n % 10)]
  }

  /** Reads a non-empty run of decimal digits; anything else is None. */
  function ParseDecimal(s: string): Option<nat> {
    if |s| == 0 || !IsDigit(s[|s| - 1]) then None
    else if |s| == 1 then Some(DigitValue(s[0]))
    else match ParseDecimal(s[..|s| - 1])
      case None => None
      case Some(m) => Some(10 * m + DigitValue(s[|s| - 1]))
  }

  lemma {:induction false} DecimalRoundTrip(n: nat)
    ensures ParseDecimal(Decimal(n)) == Some(n)
  {
    if n >= 10 {
      var s := Decimal(n);
      DecimalRoundTrip(n / 10);
      assert s[..|s| - 1] == Decimal(n / 10);
      assert DigitValue(s[|s| - 1]) == n % 10;
    }
  }

  /** A serial in [1000, 9999] is rendered with exactly four digits. */
  lemma FourDigits(n: nat)
    requires 1000 <= n <= 9999
    ensures |Decimal(n)| == 4
  {
    var a, b, c := n / 10, n / 100, n / 1000;
    assert a / 10 == b && b / 10 == c;
    assert 1 <= c < 10 && 10 <= b < 100 && 100 <= a < 1000;
    assert |Decimal(c)| == 1;
    assert |Decimal(b)| == 2;
    assert |Decimal(a)| == 3;
  }

  /** Cuts `s` at the first `sep`: the part before it, and the part after it
      when there is one. */
  function SplitFirst(s: string, sep: char): (string, Option<string>) {
    if |s| == 0 then (s, None)
    else if s[0] == sep then ([], Some(s[1..]))
    else
      var (head, rest) := SplitFirst(s[1..], sep);
      ([s[0]] + head, rest)
  }

  lemma {:induction false} SplitFirstAt(a: string, sep: char, b: string)
    requires forall k :: 0 <= k < |a| ==> a[k] != sep
    ensures SplitFirst(a + [sep] + b, sep) == (a, Some(b))
  {
    if |a| > 0 {
      assert (a + [sep] + b)[1..] == a[1..] + [sep] + b;
      SplitFirstAt(a[1..], sep, b);
      assert [a[0]] + a[1..] == a;
    } else {
      assert (a + [sep] + b)[1..] == b;
    }
  }

  /** A run of `k` digits reads as a number below 10^k. */
  lemma {:induction false} DecimalBound(s: string)
    ensures ParseDecimal(s).Some? ==> ParseDecimal(s).value < Pow10(|s|)
  {
    if |s| > 1 && IsDigit(s[|s| - 1]) {
      DecimalBound(s[..|s| - 1]);
    }
  }

  function Pow10(k: nat): nat {
    if k == 0 then 1 else 10 * Pow10(k - 1)
  }

  /** The pieces of a template written one after the other. */
  function Join(xs: seq<string>): string {
    if |xs| == 0 then [] else Join(xs[..|xs| - 1]) + xs[|xs| - 1]
  }

  lemma {:induction false} JoinAppend(a: seq<string>, b: seq<string>)
    ensures Join(a + b) == Join(a) + Join(b)
  {
    if |b| > 0 {
      assert (a + b)[..|a + b| - 1] == a + b[..|b| - 1];
      JoinAppend(a, b[..|b| - 1]);
    } else {
      assert a + b == a;
    }
  }

  lemma JoinOne(x: string)
    ensures Join([x]) == x
  {
    assert [x][..0] == [];
  }

  lemma JoinThree(a: seq<string>, x: string, b: seq<string>)
    ensures Join(a + ([x] + b)) == Join(a) + x + Join(b)
  {
    JoinAppend(a, [x] + b);
    JoinAppend([x], b);
    JoinOne(x);
  }

  /** A joined text is what comes before piece `k`, piece `k`, and what comes after. */
  lemma JoinAround(xs: seq<string>, k: nat)
    requires k < |xs|
    ensures Join(xs) == Join(xs[..k]) + xs[k] + Join(xs[k + 1..])
  {
    SplitSeq(xs, k);
    JoinThree(xs[..k], xs[k], xs[k + 1..]);
  }

  lemma SplitSeq(xs: seq<string>, k: nat)
    requires k < |xs|
    ensures xs == xs[..k] + ([xs[k]] + xs[k + 1..])
  {
  }

  /** Piece `k` occurs in the joined text where the pieces before it end. */
  lemma JoinContains(xs: seq<string>, k: nat)
    requires k < |xs|
    ensures ContainsAt(Join(xs), xs[k], |Join(xs[..k])|)
  {
    JoinAround(xs, k);
    ContainsMiddle(Join(xs[..k]), xs[k], Join(xs[k + 1..]));
  }

  /** Pieces `k` and `k + 1` occur together in the joined text. */
  lemma JoinContainsPair(xs: seq<string>, k: nat)
    requires k + 1 < |xs|
    ensures ContainsAt(Join(xs), xs[k] + xs[k + 1], |Join(xs[..k])|)
  {
    JoinAround(xs, k);
    JoinAround(xs[k + 1..], 0);
    assert xs[k + 1..][0] == xs[k + 1] && xs[k + 1..][..0] == [] && xs[k + 1..][1..] == xs[k + 2..];
    assert Join(xs) == Join(xs[..k]) + (xs[k] + xs[k + 1]) + Join(xs[k + 2..]);
    ContainsMiddle(Join(xs[..k]), xs[k] + xs[k + 1], Join(xs[k + 2..]));
  }
}

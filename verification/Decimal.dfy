/** Decimal printing of integers, its inverse, and how printed parts separate. */
module Decimal {

  function Digit(n: nat): char
    requires n < 10
  {
    "0123456789"[n]
  }

  predicate IsDigit(c: char) {
    '0' <= c <= '9'
  }

  function Natural(n: nat): (s: string)
    ensures s != [] && forall i :: 0 <= i < |s| ==> IsDigit(s[i])
  {
    if n < 10 then [Digit(n)] else Natural(n / 10) + [Digit(n % 10)]
  }

  /** What `%d` prints. */
  function Print(n: int): (s: string)
    ensures s != [] && (s[0] == '-' || IsDigit(s[0]))
    ensures forall i :: 1 <= i < |s| ==> IsDigit(s[i])
  {
    if n < 0 then "-" + Natural(-n) else Natural(n)
  }

  function NaturalValue(s: string): int {
    if s == [] then 0 else NaturalValue(s[..|s| - 1]) * 10 + (s[|s| - 1] as int - '0' as int)
  }

  function Value(s: string): int {
    if s != [] && s[0] == '-' then -NaturalValue(s[1..]) else NaturalValue(s)
  }

  lemma {:induction false} NaturalReadsBack(n: nat)
    ensures NaturalValue(Natural(n)) == n
  {
    assert forall d: nat :: d < 10 ==> Digit(d) as int - '0' as int == d;
    if n < 10 {
      assert Natural(n)[..0] == [];
    } else {
      NaturalReadsBack(n / 10);
      assert Natural(n)[..|Natural(n)| - 1] == Natural(n / 10);
    }
  }

  lemma PrintReadsBack(n: int)
    ensures Value(Print(n)) == n
  {
    if n < 0 {
      NaturalReadsBack(-n);
      assert Print(n)[1..] == Natural(-n);
    } else {
      NaturalReadsBack(n);
    }
  }

  /** The usual form: digits, without leading zeros, behind a minus sign exactly for a negative number. */
  lemma {:induction false} NaturalIsCanonical(n: nat)
    ensures Natural(n)[0] == '0' <==> n == 0
    ensures n == 0 ==> Natural(n) == "0"
  {
    assert forall d: nat :: d < 10 ==> (Digit(d) == '0' <==> d == 0);
    if n >= 10 {
      NaturalIsCanonical(n / 10);
    }
  }

  lemma PrintIsCanonical(n: int)
    ensures Print(n)[0] == '-' <==> n < 0
    ensures Print(n)[0] == '0' <==> n == 0
    ensures n == 0 ==> Print(n) == "0"
    ensures n < 0 ==> |Print(n)| > 1 && Print(n)[1] != '0'
  {
    NaturalIsCanonical(if n < 0 then -n else n);
  }

  lemma PrintInjective(a: int, b: int)
    requires Print(a) == Print(b)
    ensures a == b
  {
    PrintReadsBack(a);
    PrintReadsBack(b);
  }

  ghost predicate Without(s: string, c: char) {
    forall i :: 0 <= i < |s| ==> s[i] != c
  }

  ghost predicate StartsAtOrEmpty(s: string, c: char) {
    s == [] || s[0] == c
  }

  function FirstIndex(s: string, c: char): nat {
    if s == [] || s[0] == c then 0 else 1 + FirstIndex(s[1..], c)
  }

  lemma {:induction false} FirstIndexOf(a: string, x: string, c: char)
    requires Without(a, c) && StartsAtOrEmpty(x, c)
    ensures FirstIndex(a + x, c) == |a|
  {
    if a == [] {
      assert a + x == x;
    } else {
      assert (a + x)[1..] == a[1..] + x;
      FirstIndexOf(a[1..], x, c);
    }
  }

  /** Two texts cut at the first separator are equal piece by piece. */
  lemma SplitUnique(a: string, x: string, b: string, y: string, c: char)
    requires Without(a, c) && Without(b, c) && StartsAtOrEmpty(x, c) && StartsAtOrEmpty(y, c)
    requires a + x == b + y
    ensures a == b && x == y
  {
    FirstIndexOf(a, x, c);
    FirstIndexOf(b, y, c);
    assert (a + x)[..|a|] == a && (b + y)[..|b|] == b;
    assert (a + x)[|a|..] == x && (b + y)[|b|..] == y;
  }

  /** A printed number and what follows it from a dash on. */
  lemma PrintThenDash(a: int, x: string, b: int, y: string)
    requires Print(a) + ("-" + x) == Print(b) + ("-" + y)
    ensures a == b && x == y
  {
    hide Natural;
    var p, q, u, v := Print(a), Print(b), "-" + x, "-" + y;
    hide Print;
    assert (p + u)[1..] == p[1..] + u && (q + v)[1..] == q[1..] + v;
    SplitUnique(p[1..], u, q[1..], v, '-');
    assert p[0] == (p + u)[0] == q[0];
    assert p == [p[0]] + p[1..] && q == [q[0]] + q[1..];
    PrintInjective(a, b);
    assert x == u[1..] && y == v[1..];
  }

  /** Two printed numbers joined by a dash read back as themselves, whatever their signs. */
  lemma PairInjective(a: int, b: int, c: int, d: int)
    requires Print(a) + "-" + Print(b) == Print(c) + "-" + Print(d)
    ensures a == c && b == d
  {
    hide Print;
    assert Print(a) + "-" + Print(b) == Print(a) + ("-" + Print(b));
    assert Print(c) + "-" + Print(d) == Print(c) + ("-" + Print(d));
    PrintThenDash(a, Print(b), c, Print(d));
    PrintInjective(b, d);
  }

  /** A single number never looks like a pair. */
  lemma SingleIsNoPair(a: int, b: int, c: int)
    ensures Print(a) != Print(b) + "-" + Print(c)
  {
    assert (Print(b) + "-" + Print(c))[|Print(b)|] == '-';
  }
}

/**
 * Decimal rendering of integers, as a template literal `${n}` produces it for
 * an integral number, and the facts needed to read two ids apart.
 */
module JsStrings {
  import opened Seqs

  predicate IsDigit(c: char) {
    '0' <= c <= '9'
  }

  function DigitChar(d: nat): (c: char)
    requires d < 10
    ensures IsDigit(c)
  {
    "0123456789"[d]
  }

  /** `${n}` for a non-negative integer `n`: no sign, no leading zeros. */
  function NatToString(n: nat): (s: string)
    ensures |s| >= 1
    ensures n >= 10 ==> |s| >= 2
    ensures forall i :: 0 <= i < |s| ==> IsDigit(s[i])
  {
    if n < 10 then [DigitChar(n)] else NatToString(n / 10) + [DigitChar(n % 10)]
  }

  /** `${i}` for an integer `i`: a minus sign before the digits of a negative value. */
  function IntToString(i: int): (s: string)
    ensures |s| >= 1
    ensures forall k :: 0 <= k < |s| ==> IsDigit(s[k]) || s[k] == '-'
    ensures i < 0 <==> s[0] == '-'
  {
    if i < 0 then "-" + NatToString(-i) else NatToString(i)
  }

  /** `${n}` of a non-negative integer has no sign. */
  lemma NatIntToString(n: nat)
    ensures IntToString(n) == NatToString(n)
  {
  }

  /** Distinct naturals render differently. */
  lemma {:induction false} NatToStringInjective(m: nat, n: nat)
    requires NatToString(m) == NatToString(n)
    ensures m == n
  {
    var sm := NatToString(m);
    if m >= 10 && n >= 10 {
      assert NatToString(m / 10) == sm[..|sm| - 1];
      assert NatToString(n / 10) == sm[..|sm| - 1];
      NatToStringInjective(m / 10, n / 10);
      assert DigitChar(m % 10) == sm[|sm| - 1] == DigitChar(n % 10);
    }
  }

  lemma IntToStringNegative(i: int)
    requires i < 0
    ensures IntToString(i) == ['-'] + NatToString(-i)
  {
  }

  /** Distinct negative integers render differently. */
  lemma NegIntToStringInjective(i: int, j: int)
    requires i < 0 && j < 0 && IntToString(i) == IntToString(j)
    ensures i == j
  {
    IntToStringNegative(i);
    IntToStringNegative(j);
    CancelPrefix(['-'], NatToString(-i), NatToString(-j));
    NatToStringInjective(-i, -j);
  }

  /** Distinct integers render differently. */
  lemma IntToStringInjective(i: int, j: int)
    requires IntToString(i) == IntToString(j)
    ensures i == j
  {
    if i < 0 && j < 0 {
      NegIntToStringInjective(i, j);
    } else if i >= 0 && j >= 0 {
      NatToStringInjective(i, j);
    }
  }

  /** Two strings built as `a + [sep] + b` split the same way when `sep` occurs in neither head. */
  lemma SplitAtSeparator(a: string, b: string, c: string, d: string, sep: char)
    requires sep !in a && sep !in c
    requires a + ([sep] + b) == c + ([sep] + d)
    ensures a == c && b == d
  {
    var s := a + ([sep] + b);
    assert forall k :: 0 <= k < |a| ==> s[k] == a[k] != sep;
    assert forall k :: 0 <= k < |c| ==> s[k] == c[k] != sep;
    assert s[|a|] == sep && s[|c|] == sep;
    assert |a| == |c|;
    assert a == s[..|a|] == c;
    assert b == s[|a| + 1..] == d;
  }

  /** A part of a template literal: literal text, or an interpolated integer `${n}`. */
  datatype Part = Text(text: string) | Number(n: int)

  /** The string a template literal evaluates to: its parts rendered and joined in order. */
  function Template(parts: seq<Part>): string
  {
    if parts == [] then []
    else
      var head := match parts[0] case Text(t) => t case Number(n) => IntToString(n);
      head + Template(parts[1..])
  }

  /** A text part followed by a number part renders as the text, then the digits, then the rest. */
  lemma TemplateTextNumber(t: string, n: int, rest: seq<Part>)
    ensures Template([Text(t), Number(n)] + rest) == (t + IntToString(n)) + Template(rest)
  {
    var parts := [Text(t), Number(n)] + rest;
    assert parts[1..][1..] == rest;
    assert Template(parts[1..]) == IntToString(n) + Template(rest);
    ConcatAssoc(t, IntToString(n), Template(rest));
  }

  /** The last text-and-number pair of a template literal. */
  lemma TemplateOfTwo(t: string, n: int)
    ensures Template([Text(t), Number(n)]) == t + IntToString(n)
  {
    assert [Text(t), Number(n)] == [Text(t), Number(n)] + [];
    TemplateTextNumber(t, n, []);
    assert (t + IntToString(n)) + [] == t + IntToString(n);
  }

  /** `${t1}${n1}${t2}${n2}` spelled out. */
  lemma TemplateOfFour(t1: string, n1: int, t2: string, n2: int)
    ensures Template([Text(t1), Number(n1), Text(t2), Number(n2)]) == (t1 + IntToString(n1)) + (t2 + IntToString(n2))
  {
    assert [Text(t1), Number(n1), Text(t2), Number(n2)] == [Text(t1), Number(n1)] + [Text(t2), Number(n2)];
    TemplateTextNumber(t1, n1, [Text(t2), Number(n2)]);
    TemplateOfTwo(t2, n2);
  }

  /** `${t1}${n1}${t2}${n2}${t3}${n3}` spelled out. */
  lemma TemplateOfSix(t1: string, n1: int, t2: string, n2: int, t3: string, n3: int)
    ensures Template([Text(t1), Number(n1), Text(t2), Number(n2), Text(t3), Number(n3)])
      == (t1 + IntToString(n1)) + ((t2 + IntToString(n2)) + (t3 + IntToString(n3)))
  {
    var tail := [Text(t2), Number(n2), Text(t3), Number(n3)];
    assert [Text(t1), Number(n1), Text(t2), Number(n2), Text(t3), Number(n3)] == [Text(t1), Number(n1)] + tail;
    TemplateTextNumber(t1, n1, tail);
    TemplateOfFour(t2, n2, t3, n3);
  }

  /** A common prefix can be cancelled. */
  lemma CancelPrefix(p: string, x: string, y: string)
    requires p + x == p + y
    ensures x == y
  {
    assert x == (p + x)[|p|..];
    assert y == (p + y)[|p|..];
  }
}

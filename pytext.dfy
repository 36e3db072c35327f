/**
 * Python string operations the bot relies on, restricted to the ASCII
 * behaviour that matters here: decimal digits, zero padding, `str(int)`
 * and `str.title()`.
 */
module PyText {

  predicate IsDigit(c: char) { '0' <= c <= '9' }

  predicate AllDigits(s: string) { forall i :: 0 <= i < |s| ==> IsDigit(s[i]) }

  function DigitValue(c: char): (d: nat)
    requires IsDigit(c)
    ensures d < 10
  {
    (c as int) - ('0' as int)
  }

  function DigitChar(d: nat): (c: char)
    requires d < 10
    ensures IsDigit(c) && DigitValue(c) == d
  {
    (('0' as int) + d) as char
  }

  /** The number a run of decimal digits spells, most significant first. */
  function DigitsValue(s: string): nat
    requires AllDigits(s)
  {
    if s == [] then 0 else 10 * DigitsValue(s[..|s| - 1]) + DigitValue(s[|s| - 1])
  }

  function Pow10(n: nat): (p: nat)
    ensures p >= 1
  {
    if n == 0 then 1 else 10 * Pow10(n - 1)
  }

  lemma {:induction false} DigitsValueBelow(s: string)
    requires AllDigits(s)
    ensures DigitsValue(s) < Pow10(|s|)
  {
    if s != [] {
      DigitsValueBelow(s[..|s| - 1]);
    }
  }

  /** `str(n)` for a non-negative integer: no leading zeros, "0" for zero. */
  function NatToString(n: nat): (s: string)
    ensures |s| >= 1 && AllDigits(s)
    ensures |s| > 1 ==> s[0] != '0'
    decreases n
  {
    if n < 10 then [DigitChar(n)] else NatToString(n / 10) + [DigitChar(n % 10)]
  }

  lemma {:induction false} NatToStringValue(n: nat)
    ensures DigitsValue(NatToString(n)) == n
    decreases n
  {
    var s := NatToString(n);
    if n >= 10 {
      NatToStringValue(n / 10);
      assert s[..|s| - 1] == NatToString(n / 10);
    }
  }

  /** `str(n)` has at most k digits exactly when n is below 10^k. */
  lemma {:induction false} NatToStringWidth(n: nat, k: nat)
    requires k >= 1
    ensures n < Pow10(k) <==> |NatToString(n)| <= k
    decreases n
  {
    if n >= 10 {
      assert NatToString(n) == NatToString(n / 10) + [DigitChar(n % 10)];
      if k >= 2 {
        NatToStringWidth(n / 10, k - 1);
        assert n < 10 * Pow10(k - 1) <==> n / 10 < Pow10(k - 1);
      }
    }
  }

  /** `str(i)` for any Python int. */
  function IntToString(i: int): (s: string)
    ensures |s| >= 1
    ensures (i < 0) == (s[0] == '-')
    ensures i >= 0 ==> AllDigits(s) && DigitsValue(s) == i
    ensures i < 0 ==> AllDigits(s[1..]) && DigitsValue(s[1..]) == -i
  {
    NatToStringValue(if i < 0 then -i else i);
    if i < 0 then "-" + NatToString(-i) else NatToString(i)
  }

  /** A two-digit, zero-padded rendering (`%02d`). */
  function Pad2(n: nat): (s: string)
    requires n < 100
    ensures |s| == 2 && AllDigits(s) && DigitsValue(s) == n
  {
    var s := [DigitChar(n / 10), DigitChar(n % 10)];
    assert s[..1] == [DigitChar(n / 10)] && s[..1][..0] == [];
    assert DigitsValue(s[..1]) == n / 10;
    s
  }

  /** A four-digit, zero-padded rendering (`%04d`). */
  function Pad4(n: nat): (s: string)
    requires n < 10000
    ensures |s| == 4 && AllDigits(s) && DigitsValue(s) == n
  {
    var s := Pad2(n / 100) + Pad2(n % 100);
    assert s[..3][..2] == Pad2(n / 100) && s[..2] == Pad2(n / 100);
    assert DigitsValue(s[..3]) == 10 * (n / 100) + DigitValue(s[2]);
    s
  }

  predicate IsUpper(c: char) { 'A' <= c <= 'Z' }
  predicate IsLower(c: char) { 'a' <= c <= 'z' }

  /** A character that has case, as Python's `_PyUnicode_IsCased` on ASCII. */
  predicate IsCased(c: char) { IsUpper(c) || IsLower(c) }

  function ToUpper(c: char): (u: char)
    ensures IsCased(u) == IsCased(c) && !IsLower(u)
  {
    if IsLower(c) then (c as int - 32) as char else c
  }

  function ToLower(c: char): (l: char)
    ensures IsCased(l) == IsCased(c) && !IsUpper(l)
  {
    if IsUpper(c) then (c as int + 32) as char else c
  }

  /**
   * `str.title()`: each character is upper-cased when the character before
   * it is not cased (or it starts the string) and lower-cased otherwise.
   */
  function Title(s: string): string
  {
    TitleAfter(s, false)
  }

  function TitleAfter(s: string, previousCased: bool): (r: string)
    ensures |r| == |s|
  {
    if s == [] then []
    else
      var c := if previousCased then ToLower(s[0]) else ToUpper(s[0]);
      [c] + TitleAfter(s[1..], IsCased(s[0]))
  }

  /** The case a character takes in `Title(s)` depends only on its left neighbour. */
  predicate TitleCasedAt(s: string, r: string, i: int)
    requires |r| == |s| && 0 <= i < |s|
  {
    r[i] == if i == 0 || !IsCased(s[i - 1]) then ToUpper(s[i]) else ToLower(s[i])
  }

  lemma {:induction false} TitleAfterAt(s: string, previousCased: bool, i: nat)
    requires i < |s|
    ensures TitleAfter(s, previousCased)[i]
         == if i == 0 then (if previousCased then ToLower(s[0]) else ToUpper(s[0]))
            else if IsCased(s[i - 1]) then ToLower(s[i]) else ToUpper(s[i])
  {
    if i > 0 {
      TitleAfterAt(s[1..], IsCased(s[0]), i - 1);
    }
  }

  lemma TitleAt(s: string)
    ensures |Title(s)| == |s|
    ensures forall i :: 0 <= i < |s| ==> TitleCasedAt(s, Title(s), i)
  {
    forall i | 0 <= i < |s| ensures TitleCasedAt(s, Title(s), i) {
      TitleAfterAt(s, false, i);
    }
  }

  /** Title-casing twice is the same as title-casing once. */
  lemma TitleIdempotent(s: string)
    ensures Title(Title(s)) == Title(s)
  {
    var r := Title(s);
    TitleAt(s);
    TitleAt(r);
    forall i | 0 <= i < |s| ensures Title(r)[i] == r[i] {
      assert TitleCasedAt(r, Title(r), i);
      assert TitleCasedAt(s, r, i);
      if i > 0 {
        assert TitleCasedAt(s, r, i - 1);
      }
    }
  }

  /** Characters without case, such as the "N/A" placeholder's slash, pass through. */
  lemma TitleOfPlaceholder()
    ensures Title("N/A") == "N/A"
  {
    assert TitleAfter("A", false) == "A";
    assert TitleAfter("/A", true) == "/A";
  }

  /** A run of lower-case letters after a cased character stays as it is. */
  lemma {:induction false} LowerRunUnchanged(s: string)
    requires forall i :: 0 <= i < |s| ==> IsLower(s[i])
    ensures TitleAfter(s, true) == s
  {
    if s != [] {
      LowerRunUnchanged(s[1..]);
      assert s == [s[0]] + s[1..];
    }
  }

  /** A lower-case word is capitalised: its first letter upper-cased, the rest kept. */
  lemma TitleOfLowerWord(s: string)
    requires s != [] && forall i :: 0 <= i < |s| ==> IsLower(s[i])
    ensures Title(s) == [ToUpper(s[0])] + s[1..]
  {
    LowerRunUnchanged(s[1..]);
  }
}

/**
 * Decimal numerals as the status commands use them: str(n) of a non-negative integer,
 * int() of a captured group of ASCII digits, and the format spec `>3` that right-justifies
 * a number in a field of three characters.
 */
module Decimal {
  import opened Wrappers

  predicate IsDigit(ch: char)
  {
    '0' <= ch <= '9'
  }

  predicate IsDigits(s: string)
  {
    forall i :: 0 <= i < |s| ==> IsDigit(s[i])
  }

  function DigitChar(d: nat): (ch: char)
    requires d < 10
    ensures IsDigit(ch) && ch as int - '0' as int == d
  {
    ('0' as int + d) as char
  }

  /** str(n): the decimal numeral of n, non-empty, all digits, without leading zeros. */
  function Digits(n: nat): (s: string)
    ensures |s| >= 1 && IsDigits(s)
    ensures s[0] == '0' ==> n == 0
    decreases n
  {
    if n < 10 then [DigitChar(n)] else Digits(n / 10) + [DigitChar(n % 10)]
  }

  /** The number a string of digits denotes, most significant digit first. */
  function Value(s: string): nat
    requires IsDigits(s)
  {
    if s == [] then 0 else 10 * Value(s[..|s| - 1]) + (s[|s| - 1] as int - '0' as int)
  }

  /** int(s) for a captured group of digits: the empty group is not a literal (ValueError). */
  function ParseInt(s: string): (r: Option<nat>)
    requires IsDigits(s)
    ensures r.None? <==> s == []
  {
    if s == [] then None else Some(Value(s))
  }

  function Pow10(k: nat): nat
  {
    if k == 0 then 1 else 10 * Pow10(k - 1)
  }

  /** The numeral denotes the number it was made from. */
  lemma {:induction false} ValueOfDigits(n: nat)
    ensures Value(Digits(n)) == n
    decreases n
  {
    if n >= 10 {
      ValueOfDigits(n / 10);
      var s := Digits(n);
      assert s[..|s| - 1] == Digits(n / 10);
    }
  }

  /** int(str(n)) == n. */
  lemma ParseDigits(n: nat)
    ensures ParseInt(Digits(n)) == Some(n)
  {
    ValueOfDigits(n);
  }

  /** str is injective on non-negative integers. */
  lemma DigitsInjective(m: nat, n: nat)
    requires Digits(m) == Digits(n)
    ensures m == n
  {
    ValueOfDigits(m);
    ValueOfDigits(n);
  }

  /** n has at most k digits exactly when n < 10^k. */
  lemma {:induction false} DigitsLength(n: nat, k: nat)
    requires k >= 1
    ensures |Digits(n)| <= k <==> n < Pow10(k)
    decreases n
  {
    if n < 10 {
      Pow10AtLeastTen(k);
    } else if k == 1 {
      assert Pow10(1) == 10;
    } else {
      DigitsLength(n / 10, k - 1);
    }
  }

  lemma {:induction false} Pow10AtLeastTen(k: nat)
    requires k >= 1
    ensures Pow10(k) >= 10
  {
    if k > 1 {
      Pow10AtLeastTen(k - 1);
    }
  }

  /**
   * Python's format spec `>width` on a string: pad with spaces on the left up to
   * width characters; a longer string is kept whole, never truncated.
   */
  function RightJustify(s: string, width: nat): (r: string)
    ensures |r| == if |s| < width then width else |s|
    ensures r[|r| - |s|..] == s
    ensures forall i :: 0 <= i < |r| - |s| ==> r[i] == ' '
  {
    if |s| < width then seq(width - |s|, _ => ' ') + s else s
  }

  /** f"{n:>3}": the numeral of n right-justified in a field of three characters. */
  function Field(n: nat): (r: string)
    ensures |r| == if |Digits(n)| < 3 then 3 else |Digits(n)|
    ensures r[|r| - |Digits(n)|..] == Digits(n)
    ensures forall i :: 0 <= i < |r| - |Digits(n)| ==> r[i] == ' '
    ensures forall i :: 0 <= i < |r| ==> r[i] == ' ' || IsDigit(r[i])
  {
    RightJustify(Digits(n), 3)
  }

  /** For every number below 1000, in particular every percentage 0..100, the field is exactly three characters. */
  lemma FieldWidth(n: nat)
    ensures n < 1000 <==> |Field(n)| == 3
  {
    DigitsLength(n, 3);
    assert Pow10(3) == 1000;
  }

  /** Drops the leading spaces of a string. */
  function TrimLeft(s: string): (r: string)
    ensures |r| <= |s| && r == s[|s| - |r|..]
    ensures r == [] || r[0] != ' '
  {
    if s != [] && s[0] == ' ' then TrimLeft(s[1..]) else s
  }

  /**
   * Reads a right-justified numeral back: a non-empty run of digits, after exactly
   * as many leading spaces as fill a field of three characters.
   */
  function ReadField(s: string): Option<nat>
  {
    var t := TrimLeft(s);
    if IsDigits(t) && |s| == (if |t| < 3 then 3 else |t|) then ParseInt(t) else None
  }

  /** A field that reads back has the width `>3` gives: at least three characters, spaces only to reach three. */
  lemma ReadFieldWidth(s: string)
    requires ReadField(s).Some?
    ensures |s| >= 3
    ensures |s| > 3 ==> s[0] != ' '
  {
  }

  /** An unpadded numeral of fewer than three digits is not a field. */
  lemma UnpaddedIsNotAField()
    ensures ReadField("85") == None
  {
    assert TrimLeft("85") == "85";
  }

  /** TrimLeft removes exactly the run of spaces in front of the first non-space. */
  lemma {:induction false} TrimSpaces(s: string, k: nat)
    requires k <= |s|
    requires forall i :: 0 <= i < k ==> s[i] == ' '
    requires k == |s| || s[k] != ' '
    ensures TrimLeft(s) == s[k..]
    decreases k
  {
    if k > 0 {
      TrimSpaces(s[1..], k - 1);
    }
  }

  /** The field is read back as the number it shows: `>3` loses nothing. */
  lemma ReadFieldOfField(n: nat)
    ensures ReadField(Field(n)) == Some(n)
  {
    var f := Field(n);
    var k := |f| - |Digits(n)|;
    TrimSpaces(f, k);
    ParseDigits(n);
  }

  /** Distinct numbers give distinct fields. */
  lemma FieldInjective(m: nat, n: nat)
    requires Field(m) == Field(n)
    ensures m == n
  {
    ReadFieldOfField(m);
    ReadFieldOfField(n);
  }
}

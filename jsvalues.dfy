/**
 * The few JavaScript value rules the handler relies on: which string values
 * are falsy, what `a || b` yields, what `"" + x` appends for a missing
 * property, and how an integer is written out by a template literal.
 * A field that may be absent (`undefined`) is an `Option<string>`.
 */
module JsValues {
  import opened Wrappers

  /** A string-or-undefined value is truthy when it is present and not empty. */
  predicate Truthy(v: Option<string>) {
    v.Some? && v.value != ""
  }

  /** `v || fallback` for a string-or-undefined `v` and a string fallback. */
  function Or(v: Option<string>, fallback: string): (r: string)
    ensures Truthy(v) ==> r == v.value
    ensures !Truthy(v) ==> r == fallback
    ensures r == "" ==> fallback == ""
  {
    if Truthy(v) then v.value else fallback
  }

  /** What string concatenation appends for a string-or-undefined value. */
  function Appended(v: Option<string>): string {
    match v
    case Some(s) => s
    case None => "undefined"
  }

  predicate IsDigit(c: char) {
    '0' <= c <= '9'
  }

  predicate AllDigits(s: string) {
    forall i :: 0 <= i < |s| ==> IsDigit(s[i])
  }

  function DigitChar(d: nat): (c: char)
    requires d < 10
    ensures IsDigit(c) && DigitValue(c) == d
  {
    "0123456789"[d]
  }

  function DigitValue(c: char): nat
    requires IsDigit(c)
  {
    (c as int) - ('0' as int)
  }

  /** Decimal digits of `n`, most significant first, without leading zeros. */
  function NatToString(n: nat): (s: string)
    ensures |s| >= 1 && AllDigits(s)
    ensures s[0] == '0' <==> n == 0
    ensures |s| > 1 ==> s[0] != '0'
    decreases n
  {
    if n < 10 then [DigitChar(n)] else NatToString(n / 10) + [DigitChar(n % 10)]
  }

  /**
   * A numeral as JavaScript writes an integer: optionally a minus sign, then
   * digits with no leading zero ("0" itself excepted, "-0" excluded).
   */
  predicate IsCanonicalInt(s: string) {
    if |s| >= 1 && s[0] == '-' then |s| >= 2 && AllDigits(s[1..]) && s[1] != '0'
    else |s| >= 1 && AllDigits(s) && (|s| > 1 ==> s[0] != '0')
  }

  /** How a template literal writes an integer: a minus sign, then the digits of its magnitude. */
  function IntToString(n: int): (s: string)
    ensures IsCanonicalInt(s)
    ensures n < 0 <==> s[0] == '-'
  {
    if n < 0 then "-" + NatToString(-n) else NatToString(n)
  }

  /** Reads a non-empty run of decimal digits. */
  function ReadDigits(s: string): nat
    requires |s| >= 1 && AllDigits(s)
    decreases |s|
  {
    if |s| == 1 then DigitValue(s[0])
    else ReadDigits(s[..|s| - 1]) * 10 + DigitValue(s[|s| - 1])
  }

  /** Reads a canonical numeral; `None` for anything else, leading zeros included. */
  function ReadCanonicalInt(s: string): Option<int> {
    if !IsCanonicalInt(s) then None
    else if s[0] == '-' then
      var magnitude: int := ReadDigits(s[1..]);
      Some(-magnitude)
    else
      var value: int := ReadDigits(s);
      Some(value)
  }

  /** Reading back the digits of `n` gives `n`. */
  lemma {:induction false} NatToStringReadsBack(n: nat)
    ensures ReadDigits(NatToString(n)) == n
    decreases n
  {
    if n >= 10 {
      var s := NatToString(n);
      assert s[..|s| - 1] == NatToString(n / 10);
      NatToStringReadsBack(n / 10);
    }
  }

  /** The written form of an integer reads back as that integer: rendering loses nothing. */
  lemma IntToStringReadsBack(n: int)
    ensures ReadCanonicalInt(IntToString(n)) == Some(n)
  {
    if n < 0 {
      var digits := NatToString(-n);
      var s := "-" + digits;
      assert s[1..] == digits;
      NatToStringReadsBack(-n);
      assert ReadCanonicalInt(s) == Some(n);
    } else {
      var s := NatToString(n);
      assert IsDigit(s[0]);
      NatToStringReadsBack(n);
      assert ReadCanonicalInt(s) == Some(ReadDigits(s));
    }
  }

  /** Writing the value of a digit character gives that character back. */
  lemma DigitCharOfValue(c: char)
    requires IsDigit(c)
    ensures DigitChar(DigitValue(c)) == c
  {
    var d := DigitValue(c);
    if d == 0 { assert c == '0'; } else if d == 1 { assert c == '1'; }
    else if d == 2 { assert c == '2'; } else if d == 3 { assert c == '3'; }
    else if d == 4 { assert c == '4'; } else if d == 5 { assert c == '5'; }
    else if d == 6 { assert c == '6'; } else if d == 7 { assert c == '7'; }
    else if d == 8 { assert c == '8'; } else { assert c == '9'; }
  }

  /** Digits that do not start with '0' have a positive value. */
  lemma {:induction false} ReadDigitsPositive(s: string)
    requires |s| >= 1 && AllDigits(s) && s[0] != '0'
    ensures ReadDigits(s) >= 1
    decreases |s|
  {
    if |s| > 1 {
      ReadDigitsPositive(s[..|s| - 1]);
    }
  }

  /** The last decimal digit and the rest of `q * 10 + d`. */
  lemma LastDigitSplit(q: nat, d: nat)
    requires d < 10
    ensures (q * 10 + d) / 10 == q && (q * 10 + d) % 10 == d
  {
  }

  /** Digits without a leading zero are exactly how their value is written. */
  lemma {:induction false} NatToStringWritesBack(s: string)
    requires |s| >= 1 && AllDigits(s) && (|s| > 1 ==> s[0] != '0')
    ensures NatToString(ReadDigits(s)) == s
    decreases |s|
  {
    if |s| == 1 {
      DigitCharOfValue(s[0]);
      assert NatToString(ReadDigits(s)) == [s[0]];
    } else {
      var front := s[..|s| - 1];
      var last := s[|s| - 1];
      ReadDigitsPositive(front);
      NatToStringWritesBack(front);
      DigitCharOfValue(last);
      var q := ReadDigits(front);
      var d := DigitValue(last);
      var n := ReadDigits(s);
      assert n == q * 10 + d;
      LastDigitSplit(q, d);
      assert NatToString(n) == NatToString(q) + [DigitChar(d)];
      assert s == front + [last];
    }
  }

  /**
   * The converse of IntToStringReadsBack: a numeral is read exactly when it
   * is canonical, and then it is how its value is written.
   */
  lemma ReadCanonicalIntWritesBack(s: string)
    ensures ReadCanonicalInt(s).Some? <==> IsCanonicalInt(s)
    ensures ReadCanonicalInt(s).Some? ==> IntToString(ReadCanonicalInt(s).value) == s
  {
    if IsCanonicalInt(s) {
      if s[0] == '-' {
        var digits := s[1..];
        NatToStringWritesBack(digits);
        ReadDigitsPositive(digits);
        assert s == "-" + digits;
      } else {
        NatToStringWritesBack(s);
      }
    }
  }

  /** Distinct integers are written differently. */
  lemma IntToStringInjective(m: int, n: int)
    requires IntToString(m) == IntToString(n)
    ensures m == n
  {
    IntToStringReadsBack(m);
    IntToStringReadsBack(n);
  }
}

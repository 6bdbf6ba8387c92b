/** Decimal integers as the scripts read and write them: Python's str(n),
    the `%05d`-style zero-padded format and int(s) on a field. */
module Numbers {
  import opened Wrappers

  predicate IsDigit(c: char) {
    '0' <= c <= '9'
  }

  function DigitValue(c: char): nat
    requires IsDigit(c)
  {
    c as int - '0' as int
  }

  function DigitChar(d: nat): (c: char)
    requires d < 10
    ensures IsDigit(c) && DigitValue(c) == d
  {
    ('0' as int + d) as char
  }

  predicate AllDigits(s: string) {
    forall i :: 0 <= i < |s| ==> IsDigit(s[i])
  }

  function Pow10(k: nat): (r: nat)
    ensures r >= 1
  {
    if k == 0 then 1 else 10 * Pow10(k - 1)
  }

  /** The value of a string of decimal digits, most significant first. */
  function DigitsValue(s: string): nat
    requires AllDigits(s)
  {
    if s == [] then 0 else DigitsValue(s[..|s| - 1]) * 10 + DigitValue(s[|s| - 1])
  }

  /** Python's str(n) for n >= 0: the shortest digit string denoting n. */
  function FormatNat(n: nat): (r: string)
    ensures |r| >= 1 && AllDigits(r)
    ensures DigitsValue(r) == n
    ensures r[0] == '0' ==> n == 0
  {
    if n < 10 then [DigitChar(n)]
    else
      var front := FormatNat(n / 10);
      var r := front + [DigitChar(n % 10)];
      assert r[..|r| - 1] == front;
      r
  }

  /** Python's str(n) for any integer. */
  function FormatInt(n: int): string {
    if n < 0 then "-" + FormatNat(-n) else FormatNat(n)
  }

  /** Python's int(s), restricted to an optional sign followed by ASCII digits;
      None where int() raises ValueError. */
  function ParseInt(s: string): Option<int> {
    if |s| > 0 && (s[0] == '-' || s[0] == '+') then
      if |s| > 1 && AllDigits(s[1..]) then
        var v: int := if s[0] == '-' then -(DigitsValue(s[1..]) as int) else DigitsValue(s[1..]);
        Some(v)
      else None
    else if |s| > 0 && AllDigits(s) then Some(DigitsValue(s))
    else None
  }

  /** Reading back what str(n) wrote gives n. */
  lemma ParseFormat(n: int)
    ensures ParseInt(FormatInt(n)) == Some(n)
  {
    if n < 0 {
      assert FormatInt(n)[1..] == FormatNat(-n);
    }
  }

  /** A formatted integer is never empty and never contains a separator used
      by the wire format. */
  lemma FormatIntChars(n: int)
    ensures |FormatInt(n)| >= 1
    ensures forall i :: 0 <= i < |FormatInt(n)| ==> FormatInt(n)[i] == '-' || IsDigit(FormatInt(n)[i])
  {
  }

  /** Left-pads a digit string with '0' up to the given width. */
  function ZeroFill(s: string, width: nat): (r: string)
    ensures |r| == if |s| >= width then |s| else width
  {
    if |s| >= width then s else seq(width - |s|, _ => '0') + s
  }

  /** Python's format(n, '0<width>d'): the sign, then the digits zero-padded so
      that sign and digits together are at least `width` characters. */
  function FormatPadded(n: int, width: nat): string
    requires width >= 1
  {
    if n < 0 then "-" + ZeroFill(FormatNat(-n), width - 1) else ZeroFill(FormatNat(n), width)
  }

  /** Leading zeros do not change the value of a digit string. */
  lemma {:induction false} LeadingZeros(z: nat, s: string)
    requires AllDigits(s)
    ensures AllDigits(seq(z, _ => '0') + s)
    ensures DigitsValue(seq(z, _ => '0') + s) == DigitsValue(s)
    decreases |s|
  {
    var t := seq(z, _ => '0') + s;
    if s == [] {
      assert t == seq(z, _ => '0');
      AllZeros(z);
    } else {
      assert t[..|t| - 1] == seq(z, _ => '0') + s[..|s| - 1];
      LeadingZeros(z, s[..|s| - 1]);
    }
  }

  lemma {:induction false} AllZeros(z: nat)
    ensures AllDigits(seq(z, _ => '0'))
    ensures DigitsValue(seq(z, _ => '0')) == 0
  {
    if z > 0 {
      assert seq(z, _ => '0')[..z - 1] == seq(z - 1, _ => '0');
      AllZeros(z - 1);
    }
  }

  /** A number below 10^k prints in at most k digits. */
  lemma {:induction false} FormatNatLength(n: nat, k: nat)
    requires n < Pow10(k)
    ensures |FormatNat(n)| <= k || (n == 0 && k == 0)
  {
    if n >= 10 {
      assert k >= 1;
      assert n / 10 < Pow10(k - 1);
      FormatNatLength(n / 10, k - 1);
    } else if k == 0 {
      assert n == 0;
    }
  }

  /** Padding a non-negative number gives a digit string of the padded width
      (or longer, when the number needs more digits) with the same value. */
  lemma PaddedValue(n: nat, width: nat)
    requires width >= 1
    ensures AllDigits(FormatPadded(n, width))
    ensures DigitsValue(FormatPadded(n, width)) == n
    ensures n < Pow10(width) ==> |FormatPadded(n, width)| == width
  {
    var s := FormatNat(n);
    if |s| < width {
      LeadingZeros(width - |s|, s);
    }
    if n < Pow10(width) {
      FormatNatLength(n, width);
    }
  }

  /** The value of a digit string read from its first digit. */
  lemma {:induction false} DigitsValueFront(s: string)
    requires |s| >= 1 && AllDigits(s)
    ensures DigitsValue(s) == DigitValue(s[0]) * Pow10(|s| - 1) + DigitsValue(s[1..])
    ensures DigitsValue(s) < Pow10(|s|)
  {
    if |s| == 1 {
      assert s[1..] == [];
    } else {
      var init := s[..|s| - 1];
      DigitsValueFront(init);
      assert init[1..] == s[1..][..|s| - 2];
      assert init[0] == s[0];
      var d := DigitValue(s[|s| - 1]);
      var p := Pow10(|s| - 2);
      calc {
        DigitsValue(s);
        DigitsValue(init) * 10 + d;
        (DigitValue(s[0]) * p + DigitsValue(init[1..])) * 10 + d;
        DigitValue(s[0]) * (p * 10) + (DigitsValue(s[1..][..|s| - 2]) * 10 + d);
        DigitValue(s[0]) * Pow10(|s| - 1) + DigitsValue(s[1..]);
      }
      assert DigitsValue(init) <= Pow10(|s| - 1) - 1;
    }
  }

  /** Two digit strings of the same length with the same value are equal. */
  lemma {:induction false} DigitsInjective(s: string, t: string)
    requires AllDigits(s) && AllDigits(t) && |s| == |t|
    requires DigitsValue(s) == DigitsValue(t)
    ensures s == t
  {
    if s != [] {
      var n := |s| - 1;
      var a, b := DigitValue(s[n]), DigitValue(t[n]);
      var u, v := DigitsValue(s[..n]), DigitsValue(t[..n]);
      assert u * 10 + a == v * 10 + b;
      assert a == b && u == v by {
        assert (u * 10 + a) % 10 == a && (v * 10 + b) % 10 == b;
        assert (u * 10 + a) / 10 == u && (v * 10 + b) / 10 == v;
      }
      DigitsInjective(s[..n], t[..n]);
      assert s == s[..n] + [s[n]] && t == t[..n] + [t[n]];
    }
  }

  /** Zero-padding the value of a digit string to its own length gives the
      string back. */
  lemma PaddedDigits(s: string)
    requires |s| >= 1 && AllDigits(s)
    ensures FormatPadded(DigitsValue(s), |s|) == s
  {
    DigitsValueFront(s);
    PaddedValue(DigitsValue(s), |s|);
    DigitsInjective(FormatPadded(DigitsValue(s), |s|), s);
  }
}

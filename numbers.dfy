/** The few JavaScript number conversions the request pipeline relies on:
    `String(n)` for the Etag, `ToNumber` behind `isNaN(...)` and behind the
    loose comparison `ifNoneMatch != etag`, and `parseInt` of a digit group. */
module JsNumbers {

  /** A JavaScript number as far as the pipeline uses one: an integer or NaN. */
  datatype JsNum = Num(value: int) | NaN

  predicate IsDigit(c: char) {
    '0' <= c <= '9'
  }

  predicate AllDigits(s: string) {
    forall i :: 0 <= i < |s| ==> IsDigit(s[i])
  }

  /** A decimal numeral with no superfluous leading zero, as `String(n)` writes it. */
  predicate Canonical(s: string) {
    |s| > 0 && AllDigits(s) && (|s| > 1 ==> s[0] != '0')
  }

  function DigitChar(d: nat): (c: char)
    requires d < 10
    ensures IsDigit(c) && (c as int) - ('0' as int) == d
  {
    (('0' as int) + d) as char
  }

  /** The value of a string of decimal digits, most significant first. */
  function DigitsValue(s: string): nat
    requires AllDigits(s)
  {
    if s == [] then 0
    else 10 * DigitsValue(s[..|s| - 1]) + ((s[|s| - 1] as int) - ('0' as int))
  }

  /** `String(n)` for a non-negative integer. */
  function DecimalString(n: nat): (s: string)
    ensures Canonical(s)
  {
    if n < 10 then [DigitChar(n)]
    else DecimalString(n / 10) + [DigitChar(n % 10)]
  }

  /** `ToNumber(s)` for the strings this pipeline meets: the empty string is 0,
      a string of decimal digits is its value, and every other string is
      taken to be NaN. */
  function StringToNumber(s: string): (r: JsNum)
    ensures r.NaN? <==> !AllDigits(s)
    ensures AllDigits(s) ==> r == Num(DigitsValue(s))
  {
    if AllDigits(s) then Num(DigitsValue(s)) else NaN
  }

  /** `parseInt(s)` for a string made of digits only: NaN when it is empty. */
  function ParseDigits(s: string): (r: JsNum)
    requires AllDigits(s)
    ensures r.NaN? <==> s == ""
    ensures s != "" ==> r == Num(DigitsValue(s))
  {
    if s == "" then NaN else Num(DigitsValue(s))
  }

  /** `x - 1`, where NaN absorbs the subtraction. */
  function MinusOne(x: JsNum): (r: JsNum)
    ensures r.NaN? <==> x.NaN?
    ensures x.Num? ==> r.value + 1 == x.value
  {
    match x
    case Num(v) => Num(v - 1)
    case NaN => NaN
  }

  lemma {:induction false} DigitsValueSnoc(s: string, c: char)
    requires AllDigits(s) && IsDigit(c)
    ensures AllDigits(s + [c])
    ensures DigitsValue(s + [c]) == 10 * DigitsValue(s) + ((c as int) - ('0' as int))
  {
    var t := s + [c];
    assert t[..|t| - 1] == s;
  }

  /** Reading back what `String(n)` wrote gives `n`. */
  lemma {:induction false} DecimalStringValue(n: nat)
    ensures DigitsValue(DecimalString(n)) == n
  {
    if n < 10 {
      var s := DecimalString(n);
      assert s[..0] == [];
    } else {
      DecimalStringValue(n / 10);
      DigitsValueSnoc(DecimalString(n / 10), DigitChar(n % 10));
    }
  }

  /** The Etag the server writes denotes the size it was made from. */
  lemma DecimalStringToNumber(n: nat)
    ensures StringToNumber(DecimalString(n)) == Num(n)
  {
    DecimalStringValue(n);
  }

  lemma {:induction false} LeadingDigitPositive(s: string)
    requires |s| > 0 && AllDigits(s) && s[0] != '0'
    ensures DigitsValue(s) > 0
  {
    if |s| > 1 {
      var p := s[..|s| - 1];
      assert p[0] == s[0];
      LeadingDigitPositive(p);
    }
  }

  /** Conversely, a canonical numeral is exactly `String` of its value. */
  lemma {:induction false} CanonicalIsDecimalString(s: string)
    requires Canonical(s)
    ensures DecimalString(DigitsValue(s)) == s
  {
    var n := DigitsValue(s);
    if |s| > 1 {
      var p := s[..|s| - 1];
      var d := (s[|s| - 1] as int) - ('0' as int);
      assert p[0] == s[0];
      LeadingDigitPositive(p);
      assert n == 10 * DigitsValue(p) + d;
      assert n / 10 == DigitsValue(p) && n % 10 == d;
      CanonicalIsDecimalString(p);
      assert s == p + [s[|s| - 1]];
    } else {
      assert s[..0] == [];
    }
  }

  /** `k` zero digits. */
  function Zeros(k: nat): (z: string)
    ensures |z| == k && forall i :: 0 <= i < k ==> z[i] == '0'
  {
    if k == 0 then "" else "0" + Zeros(k - 1)
  }

  /** A leading zero does not change the value of a numeral. */
  lemma {:induction false} DigitValueLeadingZero(s: string)
    requires AllDigits(s)
    ensures AllDigits("0" + s) && DigitsValue("0" + s) == DigitsValue(s)
  {
    var z := "0" + s;
    assert AllDigits(z) by {
      forall i | 0 <= i < |z| ensures IsDigit(z[i]) {
        if i > 0 { assert z[i] == s[i - 1]; }
      }
    }
    if s != [] {
      var p := s[..|s| - 1];
      assert z[..|z| - 1] == "0" + p;
      DigitValueLeadingZero(p);
    }
  }

  /** Nor does any number of them. */
  lemma {:induction false} ZerosPrefixValue(k: nat, t: string)
    requires AllDigits(t)
    ensures AllDigits(Zeros(k) + t) && DigitsValue(Zeros(k) + t) == DigitsValue(t)
  {
    if k > 0 {
      ZerosPrefixValue(k - 1, t);
      assert Zeros(k) + t == "0" + (Zeros(k - 1) + t);
      DigitValueLeadingZero(Zeros(k - 1) + t);
    } else {
      assert Zeros(k) + t == t;
    }
  }

  /** How many zeros `s` starts with. */
  function LeadingZeros(s: string): (k: nat)
    ensures k <= |s| && forall i :: 0 <= i < k ==> s[i] == '0'
    ensures k < |s| ==> s[k] != '0'
  {
    if s == "" || s[0] != '0' then 0 else 1 + LeadingZeros(s[1..])
  }

  /** Which strings `ToNumber` reads as `n`: the numeral `String(n)` with any
      number of leading zeros, and, for 0 only, the empty string too. */
  lemma DenotesExactly(s: string, n: nat)
    ensures StringToNumber(s) == Num(n) <==>
      (exists k :: s == Zeros(k) + DecimalString(n)) || (n == 0 && s == "")
  {
    if StringToNumber(s) == Num(n) && s != "" {
      var k := LeadingZeros(s);
      var t := s[k..];
      assert s == Zeros(k) + t;
      assert AllDigits(t) by {
        forall i | 0 <= i < |t| ensures IsDigit(t[i]) {
          assert t[i] == s[k + i];
        }
      }
      ZerosPrefixValue(k, t);
      if t == "" {
        ZerosPrefixValue(k - 1, "0");
        assert s == Zeros(k - 1) + "0";
        assert DecimalString(0) == "0";
        assert s == Zeros(k - 1) + DecimalString(n);
      } else {
        CanonicalIsDecimalString(t);
        assert s == Zeros(k) + DecimalString(n);
      }
    }
    if exists k :: s == Zeros(k) + DecimalString(n) {
      var k :| s == Zeros(k) + DecimalString(n);
      ZerosPrefixValue(k, DecimalString(n));
      DecimalStringValue(n);
    }
  }
}

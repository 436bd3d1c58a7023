/**
 * Optional values and error results.  A C++ `throw std::runtime_error(msg)`
 * becomes `Err(msg)`; a NaN that the source tests with `isnan` becomes `None`.
 */
module Wrappers {
  datatype Option<T> = None | Some(value: T)
  {
    function GetOr(default: T): (r: T)
      ensures Some? ==> r == value
      ensures None? ==> r == default
    {
      match this
      case None => default
      case Some(v) => v
    }
  }

  datatype Result<T> = Ok(value: T) | Err(error: string)
  {
    predicate IsFailure() { Err? }
  }
}

/** Text helpers: decimal rendering of identifiers and ASCII case folding. */
module Text {
  function DigitChar(d: nat): (c: char)
    requires d < 10
    ensures '0' <= c <= '9'
  {
    "0123456789"[d]
  }

  /** `std::to_string` of a non-negative integer. */
  function NatToString(n: nat): (s: string)
    ensures |s| >= 1
    ensures forall i :: 0 <= i < |s| ==> '0' <= s[i] <= '9'
    decreases n
  {
    if n < 10 then [DigitChar(n)] else NatToString(n / 10) + [DigitChar(n % 10)]
  }

  /** Decimal value of a string of digits. */
  function DecimalValue(s: string): nat
    requires forall i :: 0 <= i < |s| ==> '0' <= s[i] <= '9'
  {
    if s == [] then 0 else 10 * DecimalValue(s[..|s| - 1]) + (s[|s| - 1] as int - '0' as int)
  }

  lemma DigitCharValue(d: nat)
    requires d < 10
    ensures DigitChar(d) as int - '0' as int == d
  {
  }

  /** The last digit and the leading digits of a string of digits give back its value. */
  lemma DecimalValueSnoc(p: string, d: nat)
    requires forall i :: 0 <= i < |p| ==> '0' <= p[i] <= '9'
    requires d < 10
    ensures forall i :: 0 <= i < |p| + 1 ==> '0' <= (p + [DigitChar(d)])[i] <= '9'
    ensures DecimalValue(p + [DigitChar(d)]) == 10 * DecimalValue(p) + d
  {
    var s := p + [DigitChar(d)];
    assert s[..|s| - 1] == p;
    DigitCharValue(d);
  }

  lemma {:induction false} NatToStringRoundTrip(n: nat)
    ensures DecimalValue(NatToString(n)) == n
    decreases n
  {
    if n < 10 {
      DecimalValueSnoc([], n);
      assert [] + [DigitChar(n)] == NatToString(n);
    } else {
      NatToStringRoundTrip(n / 10);
      DecimalValueSnoc(NatToString(n / 10), n % 10);
    }
  }

  function LowerChar(c: char): (r: char)
    ensures 'A' <= c <= 'Z' ==> r as int == c as int + 32
    ensures !('A' <= c <= 'Z') ==> r == c
  {
    if 'A' <= c <= 'Z' then (c as int + 32) as char else c
  }

  /** `boost::to_lower_copy` restricted to ASCII letters. */
  function ToLower(s: string): (r: string)
    ensures |r| == |s|
    ensures forall i :: 0 <= i < |s| ==> r[i] == LowerChar(s[i])
  {
    if s == [] then [] else [LowerChar(s[0])] + ToLower(s[1..])
  }

  lemma {:induction false} ToLowerIdempotent(s: string)
    ensures ToLower(ToLower(s)) == ToLower(s)
  {
    var t := ToLower(s);
    assert |ToLower(t)| == |t|;
    forall i | 0 <= i < |t| ensures ToLower(t)[i] == t[i] {
      assert t[i] == LowerChar(s[i]);
    }
  }
}

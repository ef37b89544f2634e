/**
 * The few JavaScript value semantics the engine relies on:
 * `v || fallback` on a number that may be missing, default parameters,
 * and the decimal rendering of a beat index inside a template literal.
 */
module JsValues {
  import opened Wrappers

  /** `v || fallback` for a number that may be `undefined`: both a missing
      value and 0 are falsy and yield the fallback. */
  function Or(v: Option<real>, fallback: real): (r: real)
    ensures v.Some? && v.value != 0.0 ==> r == v.value
    ensures v.None? || v.value == 0.0 ==> r == fallback
  {
    if v.Some? && v.value != 0.0 then v.value else fallback
  }

  /** `s || fallback` for a string that may be `undefined`: the empty string is falsy. */
  function StringOr(s: Option<string>, fallback: string): (r: string)
    ensures s.Some? && s.value != "" ==> r == s.value
    ensures s.None? || s.value == "" ==> r == fallback
  {
    if s.Some? && s.value != "" then s.value else fallback
  }

  /** A default parameter (`x: number = d`) or a field default: only a missing
      value is replaced; 0, "" and false are kept. */
  function Default<T>(v: Option<T>, fallback: T): (r: T)
    ensures v.Some? ==> r == v.value
    ensures v.None? ==> r == fallback
  {
    if v.Some? then v.value else fallback
  }

  /** Zero is kept by a default parameter but replaced by `||`. */
  lemma ZeroKeptOnlyByDefault(fallback: real)
    requires fallback != 0.0
    ensures Default(Some(0.0), fallback) == 0.0
    ensures Or(Some(0.0), fallback) == fallback
  {
  }

  function DigitChar(d: nat): (c: char)
    requires d < 10
    ensures '0' <= c <= '9'
  {
    "0123456789"[d]
  }

  function DigitValue(c: char): nat
    requires '0' <= c <= '9'
  {
    (c as int - '0' as int) as nat
  }

  /** The decimal text of a non-negative integer, as `${n}` renders it. */
  function DecimalString(n: nat): (s: string)
    ensures |s| > 0
    ensures forall k :: 0 <= k < |s| ==> '0' <= s[k] <= '9'
    ensures |s| > 1 ==> s[0] != '0'
    decreases n
  {
    if n < 10 then [DigitChar(n)] else DecimalString(n / 10) + [DigitChar(n % 10)]
  }

  /** Reads back a string of decimal digits. */
  function ParseDecimal(s: string): nat
    requires forall k :: 0 <= k < |s| ==> '0' <= s[k] <= '9'
    decreases |s|
  {
    if s == [] then 0 else 10 * ParseDecimal(s[..|s| - 1]) + DigitValue(s[|s| - 1])
  }

  /** The decimal rendering loses nothing: it reads back as the same number. */
  lemma {:induction false} DecimalRoundTrip(n: nat)
    ensures ParseDecimal(DecimalString(n)) == n
    decreases n
  {
    var s := DecimalString(n);
    if n < 10 {
      assert s[..0] == [];
      assert DigitValue(DigitChar(n)) == n by {
        assert "0123456789"[n] as int == '0' as int + n;
      }
    } else {
      DecimalRoundTrip(n / 10);
      assert s[..|s| - 1] == DecimalString(n / 10);
      assert DigitValue(DigitChar(n % 10)) == n % 10 by {
        assert "0123456789"[n % 10] as int == '0' as int + n % 10;
      }
    }
  }

  /** Different beat indices are rendered differently. */
  lemma DecimalInjective(m: nat, n: nat)
    requires DecimalString(m) == DecimalString(n)
    ensures m == n
  {
    DecimalRoundTrip(m);
    DecimalRoundTrip(n);
  }
}

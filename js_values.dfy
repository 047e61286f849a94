/** The JavaScript values the controller inspects, and the coercions it applies
    to them: truthiness (`!x`), `Number(x)`, `parseInt(x)` and strict equality
    with a number. Numbers are exact integers and strings are read as signed
    decimal numerals only; a failed coercion (NaN) is `None`. Fractions,
    exponents, radix prefixes, surrounding whitespace and the rounding of
    integers beyond 2^53 are not modelled. */
module JsValues {
  import opened Optional

  /** A JSON value as it arrives in a request body or an upstream payload.
      Objects and arrays are opaque (`Obj`). */
  datatype Json = Undefined | Null | Bool(b: bool) | Num(n: int) | Str(s: string) | Obj

  /** JavaScript truthiness: `!v` holds exactly when `Truthy(v)` does not.
      A string is truthy exactly when it is non-empty, like a parameter; a
      number, a boolean or `null` is truthy exactly when `Number` of it is
      non-zero (which does not hold for strings: "0" is truthy). */
  predicate Truthy(v: Json)
    ensures v.Undefined? || v.Null? ==> !Truthy(v)
    ensures v.Obj? ==> Truthy(v)
    ensures v.Str? ==> (Truthy(v) <==> Present(Some(v.s)))
    ensures v.Num? || v.Bool? || v.Null? ==> (Truthy(v) <==> NonZero(ToNumber(v)))
  {
    match v
    case Undefined => false
    case Null => false
    case Bool(b) => b
    case Num(n) => n != 0
    case Str(s) => s != ""
    case Obj => true
  }

  /** Truthiness of a route or query parameter: missing or empty is falsy. */
  predicate Present(p: Option<string>) {
    p.Some? && p.value != ""
  }

  /** Truthiness of a number: NaN and zero are falsy. */
  predicate NonZero(n: Option<int>) {
    n.Some? && n.value != 0
  }

  // ---------------------------------------------------------------------
  // Decimal digits

  predicate IsDigit(c: char) {
    '0' <= c <= '9'
  }

  predicate AllDigits(s: string) {
    forall i :: 0 <= i < |s| ==> IsDigit(s[i])
  }

  function DigitValue(c: char): (d: nat)
    requires IsDigit(c)
    ensures d < 10
  {
    c as int - '0' as int
  }

  function DigitChar(d: nat): (c: char)
    requires d < 10
    ensures IsDigit(c) && DigitValue(c) == d
  {
    ('0' as int + d) as char
  }

  /** The value of a string of decimal digits, most significant first. */
  function DigitsValue(s: string): nat
    requires AllDigits(s)
    decreases |s|
  {
    if s == [] then 0 else 10 * DigitsValue(s[..|s| - 1]) + DigitValue(s[|s| - 1])
  }

  /** Length of the longest run of digits at the start of `s`. */
  function DigitRun(s: string): (k: nat)
    ensures k <= |s| && AllDigits(s[..k])
    ensures k < |s| ==> !IsDigit(s[k])
  {
    if s == [] || !IsDigit(s[0]) then 0 else 1 + DigitRun(s[1..])
  }

  /** `s` without a leading sign character. */
  function Magnitude(s: string): string {
    if |s| > 0 && (s[0] == '-' || s[0] == '+') then s[1..] else s
  }

  /** `m` with the sign `s` starts with. */
  function ApplySign(s: string, m: nat): int {
    if |s| > 0 && s[0] == '-' then -(m as int) else m
  }

  // ---------------------------------------------------------------------
  // Coercions

  /** `parseInt(s)`: an optional sign, then the longest run of decimal digits;
      whatever follows the run is ignored; no digits at all gives NaN. */
  function ParseIntString(s: string): (r: Option<int>)
    // NaN exactly when no digit follows the optional sign
    ensures r.None? <==> Magnitude(s) == "" || !IsDigit(Magnitude(s)[0])
    // a string of digits alone reads as its decimal value
    ensures s != "" && AllDigits(s) ==> r == Some(DigitsValue(s))
  {
    var m := Magnitude(s);
    var k := DigitRun(m);
    assert m[..|m|] == m;
    if k == 0 then None else Some(ApplySign(s, DigitsValue(m[..k])))
  }

  /** `Number(s)`: the empty string is 0; otherwise the whole string must be
      an optional sign followed by decimal digits, else NaN. */
  function NumberString(s: string): (r: Option<int>)
    ensures s == "" ==> r == Some(0)
    ensures s != "" && AllDigits(s) ==> r == Some(DigitsValue(s))
    // a number only when every character after the sign is a digit
    ensures r.Some? && s != "" ==> Magnitude(s) != "" && AllDigits(Magnitude(s))
  {
    if s == "" then Some(0)
    else
      var m := Magnitude(s);
      if m != "" && AllDigits(m) then Some(ApplySign(s, DigitsValue(m))) else None
  }

  /** `Number(v)` on the modelled values, which is also what `v < 1`
      compares. An object or array is NaN here (true of objects, not of
      every array). */
  function ToNumber(v: Json): (r: Option<int>)
    ensures v.Num? ==> r == Some(v.n)
    ensures v.Undefined? || v.Obj? ==> r.None?
    ensures v.Null? || v == Str("") ==> r == Some(0)
  {
    match v
    case Undefined => None
    case Null => Some(0)
    case Bool(b) => Some(if b then 1 else 0)
    case Num(n) => Some(n)
    case Str(s) => NumberString(s)
    case Obj => None
  }

  /** `parseInt(v)`, which first turns `v` into its string form. An object
      or array is NaN here (true of objects, not of every array). */
  function ParseInt(v: Json): (r: Option<int>)
    ensures v.Num? ==> r == Some(v.n)
    ensures r.Some? ==> v.Num? || v.Str?
    // where the two differ on non-strings: `null` and the booleans are NaN
    // for `parseInt` but numbers for `Number`
    ensures v.Null? || v.Bool? ==> r.None? && ToNumber(v).Some?
  {
    match v
    case Num(n) => Some(n)
    case Str(s) => ParseIntString(s)
    case _ => None   // "undefined", "null", "true", "false", "[object Object]"
  }

  /** `v === n` for a number `n`: NaN equals nothing, a non-number equals no number. */
  predicate StrictEqualsNumber(v: Json, n: Option<int>)
    ensures StrictEqualsNumber(v, n) ==> v.Num? && n.Some?
    ensures v.Num? && n.Some? ==> (StrictEqualsNumber(v, n) <==> v.n == n.value)
  {
    v.Num? && n == Some(v.n)
  }

  // ---------------------------------------------------------------------
  // The decimal form of an integer (`String(n)`) and how the coercions read it

  function Decimal(n: nat): string
    decreases n
  {
    if n < 10 then [DigitChar(n)] else Decimal(n / 10) + [DigitChar(n % 10)]
  }

  function IntToString(n: int): string {
    if n < 0 then "-" + Decimal(-n) else Decimal(n)
  }

  lemma {:induction false} DecimalDigits(n: nat)
    ensures Decimal(n) != [] && AllDigits(Decimal(n)) && DigitsValue(Decimal(n)) == n
  {
    if n >= 10 {
      DecimalDigits(n / 10);
      var s := Decimal(n);
      assert s[..|s| - 1] == Decimal(n / 10);
      assert s[|s| - 1] == DigitChar(n % 10);
      assert AllDigits(s) by {
        forall i | 0 <= i < |s| ensures IsDigit(s[i]) {
          if i < |s| - 1 {
            assert s[i] == Decimal(n / 10)[i];
          }
        }
      }
    }
  }

  /** `parseInt(String(n)) == n`. */
  lemma ParseIntRoundTrip(n: int)
    ensures ParseIntString(IntToString(n)) == Some(n)
  {
    var m := if n < 0 then -n else n;
    DecimalDigits(m);
    var s := IntToString(n);
    assert Magnitude(s) == Decimal(m) by {
      if n < 0 {
        assert s[1..] == Decimal(m);
      }
    }
    assert Decimal(m)[..|Decimal(m)|] == Decimal(m);
  }

  /** `Number(String(n)) == n`. */
  lemma NumberRoundTrip(n: int)
    ensures NumberString(IntToString(n)) == Some(n)
  {
    var m := if n < 0 then -n else n;
    DecimalDigits(m);
    var s := IntToString(n);
    assert Magnitude(s) == Decimal(m) by {
      if n < 0 {
        assert s[1..] == Decimal(m);
      }
    }
  }

  /** On signed decimal numerals, where `Number` reads a non-empty string as a
      number, `parseInt` reads the same number from it. */
  lemma NumberThenParseInt(s: string)
    requires s != "" && NumberString(s).Some?
    ensures ParseIntString(s) == NumberString(s)
  {
    var m := Magnitude(s);
    assert m[..|m|] == m;
  }

  /** The converse fails even on decimal digits: `parseInt` ignores trailing
      characters that make `Number` give NaN, so "42abc" reads as 42 for one
      and NaN for the other. (A tail such as ".5", "e1" or " " is numeric
      syntax for JavaScript's `Number`, which this model does not read.) */
  lemma ParseIntIgnoresTrailing(d: string, t: string)
    requires d != "" && AllDigits(d) && t != "" && !IsDigit(t[0])
    ensures ParseIntString(d + t) == Some(DigitsValue(d))
    ensures NumberString(d + t).None?
  {
    var s := d + t;
    assert s[0] == d[0];
    assert Magnitude(s) == s;
    assert forall i | 0 <= i < |d| :: s[i] == d[i];
    assert s[|d|] == t[0];
    assert DigitRun(s) == |d|;
    assert s[..|d|] == d;
  }
}

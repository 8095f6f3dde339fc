/** A JSON document as the tree a JSON reader has already built from the text, and
    the reading of a number out of a JSON value as org.json's getDouble does it:
    a JSON number is taken as it is, a string is read as a decimal number. */
module JsonValues {
  import opened Results

  datatype Json =
    | JNull
    | JBool(truth: bool)
    | JNumber(number: real)
    | JString(text: string)
    | JArray(items: seq<Json>)
    | JObject(fields: map<string, Json>)

  predicate IsDigit(c: char) {
    '0' <= c <= '9'
  }

  predicate AllDigits(s: string) {
    forall i :: 0 <= i < |s| ==> IsDigit(s[i])
  }

  /** The value of a string of decimal digits, most significant digit first
      (the empty string is 0). */
  function DigitsValue(s: string): (value: nat)
    requires AllDigits(s)
  {
    if s == [] then 0 else DigitsValue(s[..|s| - 1]) * 10 + (s[|s| - 1] as int - '0' as int)
  }

  function Pow10(n: nat): (p: nat)
    ensures p >= 1
  {
    if n == 0 then 1 else 10 * Pow10(n - 1)
  }

  /** The first position of `c` in `s`, or |s| when `c` does not occur. */
  function IndexOf(s: string, c: char): (k: nat)
    ensures k <= |s|
    ensures k < |s| ==> s[k] == c
    ensures forall j :: 0 <= j < k ==> s[j] != c
  {
    if s == [] then 0 else if s[0] == c then 0 else 1 + IndexOf(s[1..], c)
  }

  /** Unsigned decimal notation: digits, optionally followed by a point and more
      digits, with at least one digit in all ("5", "5.0", "5." and ".5"). */
  function ParseUnsigned(s: string): (r: Option<real>)
    ensures r.Some? ==> r.value >= 0.0
    ensures r.Some? ==> |s| >= 1
  {
    var k := IndexOf(s, '.');
    var whole := s[..k];
    var fraction := if k < |s| then s[k + 1..] else "";
    if AllDigits(whole) && AllDigits(fraction) && |whole| + |fraction| >= 1 then
      Some(DigitsValue(whole) as real + FractionValue(fraction))
    else
      None
  }

  /** The value of the digits after a decimal point. */
  function FractionValue(digits: string): (v: real)
    requires AllDigits(digits)
    ensures v >= 0.0
  {
    DigitsValue(digits) as real / Pow10(|digits|) as real
  }

  /** Java's Double.parseDouble on plain decimal notation with an optional sign. */
  function ParseDecimal(s: string): (r: Option<real>)
    ensures r.Some? ==> |s| >= 1
    ensures r.Some? && r.value < 0.0 ==> s[0] == '-'
  {
    if |s| > 0 && s[0] == '-' then
      match ParseUnsigned(s[1..])
      case Some(v) => Some(-v)
      case None => None
    else if |s| > 0 && s[0] == '+' then
      ParseUnsigned(s[1..])
    else
      ParseUnsigned(s)
  }

  /** org.json's getDouble on a value already looked up: a number is taken as it
      is, a string is read as a decimal number, anything else is not a number. */
  function AsDouble(j: Json): (r: Option<real>) {
    match j
    case JNumber(n) => Some(n)
    case JString(s) => ParseDecimal(s)
    case _ => None
  }

  /** Decimal notation of a natural number, without leading zeros. */
  function FormatNat(n: nat): (s: string)
    ensures |s| >= 1 && AllDigits(s)
    ensures n >= 10 <==> |s| >= 2
  {
    if n < 10 then [('0' as int + n) as char] else FormatNat(n / 10) + [('0' as int + n % 10) as char]
  }

  /** Reading the digits FormatNat writes gives the number back. */
  lemma {:induction false} DigitsOfFormatNat(n: nat)
    ensures DigitsValue(FormatNat(n)) == n
  {
    if n >= 10 {
      var s := FormatNat(n);
      assert s[..|s| - 1] == FormatNat(n / 10);
      DigitsOfFormatNat(n / 10);
    }
  }

  /** Double.parseDouble reads back every natural number written by FormatNat. */
  lemma ParseDecimalOfFormatNat(n: nat)
    ensures ParseDecimal(FormatNat(n)) == Some(n as real)
  {
    var s := FormatNat(n);
    assert IsDigit(s[0]);
    assert IndexOf(s, '.') == |s|;
    assert s[..|s|] == s;
    DigitsOfFormatNat(n);
  }

  /** In an all-digit prefix followed by a point, the first point is right after
      the prefix. */
  lemma {:induction false} IndexOfAfterDigits(a: string, b: string)
    requires AllDigits(a) && |b| >= 1 && b[0] == '.'
    ensures IndexOf(a + b, '.') == |a|
  {
    if a != [] {
      assert (a + b)[0] == a[0];
      assert (a + b)[1..] == a[1..] + b;
      IndexOfAfterDigits(a[1..], b);
    }
  }

  /** Double.parseDouble reads a whole part and a fraction part, both written by
      FormatNat and joined by a point, as the whole part plus the fraction over
      the power of ten of its length. */
  lemma ParseDecimalOfFraction(w: nat, f: nat)
    ensures var t := FormatNat(f);
      ParseDecimal(FormatNat(w) + "." + t) == Some(w as real + f as real / Pow10(|t|) as real)
  {
    var u := FormatNat(w);
    var t := FormatNat(f);
    var s := u + "." + t;
    assert s[0] == u[0] && IsDigit(u[0]);
    assert ParseDecimal(s) == ParseUnsigned(s);
    ParseUnsignedOfParts(u, t);
    DigitsOfFormatNat(w);
    DigitsOfFormatNat(f);
  }

  /** Digits, a point and digits read as the whole part plus the fraction over
      the power of ten of its length. */
  lemma ParseUnsignedOfParts(u: string, t: string)
    requires AllDigits(u) && AllDigits(t) && |u| >= 1
    ensures ParseUnsigned(u + "." + t) == Some(DigitsValue(u) as real + FractionValue(t))
  {
    var s := u + "." + t;
    SplitAtPoint(u, t);
    var k := IndexOf(s, '.');
    assert ParseUnsigned(s) == Some(DigitsValue(s[..k]) as real + FractionValue(s[k + 1..]));
  }

  /** Digits, a point and more text split at that point. */
  lemma SplitAtPoint(u: string, t: string)
    requires AllDigits(u)
    ensures var s := u + "." + t; IndexOf(s, '.') == |u| && s[..|u|] == u && s[|u| + 1..] == t
  {
    var s := u + "." + t;
    assert s == u + ("." + t);
    IndexOfAfterDigits(u, "." + t);
  }

  /** A leading minus sign negates the unsigned value that follows it. */
  lemma ParseDecimalNegative(s: string)
    requires ParseUnsigned(s).Some?
    ensures ParseDecimal("-" + s) == Some(-ParseUnsigned(s).value)
  {
    assert ("-" + s)[1..] == s;
  }

  /** A string that is not a number in decimal notation (here: one without any
      digit) is not read as a number. */
  lemma ParseDecimalNeedsDigit(s: string)
    requires forall i :: 0 <= i < |s| ==> !IsDigit(s[i])
    ensures ParseDecimal(s) == None
  {
  }
}

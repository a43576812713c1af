/** `Number.prototype.toFixed(2)` on amounts of money held as integer hundredths,
    and the reading of that text back into hundredths. */
module Money {
  import opened Wrappers
  import opened Text

  /** `digits.dd` for a non-negative amount in hundredths. */
  function Unsigned(a: nat): (r: string)
    ensures |r| >= 4 && r[|r| - 3] == '.' && AllDigits(r[|r| - 2..]) && IsDigit(r[0])
  {
    var w := NatToString(a / 100);
    var r := w + "." + Pad2(a % 100);
    assert r[|r| - 2..] == Pad2(a % 100);
    assert r[0] == w[0];
    r
  }

  /** `amount.toFixed(2)` for an amount held in hundredths. */
  function FormatHundredths(cents: int): (r: string)
    ensures |r| >= 4 && r[|r| - 3] == '.' && AllDigits(r[|r| - 2..])
  {
    if cents < 0 then "-" + Unsigned(-cents) else Unsigned(cents)
  }

  /** Reading `digits.dd` back into hundredths. */
  function ParseUnsigned(body: string): Option<nat> {
    if |body| < 4 || body[|body| - 3] != '.' then None
    else
      var whole, frac := body[..|body| - 3], body[|body| - 2..];
      if !AllDigits(whole) || !AllDigits(frac) then None
      else Some(DigitsValue(whole) * 100 + DigitsValue(frac))
  }

  /** Reading `[-]digits.dd` back into hundredths. */
  function ParseHundredths(s: string): Option<int> {
    if |s| > 0 && s[0] == '-' then
      match ParseUnsigned(s[1..])
      case Some(v) => Some(0 - v)
      case None => None
    else
      match ParseUnsigned(s)
      case Some(v) => Some(v)
      case None => None
  }

  lemma UnsignedRoundTrip(a: nat)
    ensures ParseUnsigned(Unsigned(a)) == Some(a)
  {
    var w := NatToString(a / 100);
    var f := Pad2(a % 100);
    Pad2RoundTrip(a % 100);
    var body := w + "." + f;
    NatToStringRoundTrip(a / 100);
    assert body[..|body| - 3] == w;
    assert body[|body| - 2..] == f;
  }

  lemma NegativeRoundTrip(cents: int)
    requires cents < 0
    ensures ParseHundredths(FormatHundredths(cents)) == Some(cents)
  {
    UnsignedRoundTrip(-cents);
    SignedParse(Unsigned(-cents), -cents);
  }

  /** A minus sign in front of an unsigned amount negates it. */
  lemma SignedParse(u: string, v: nat)
    requires ParseUnsigned(u) == Some(v)
    ensures ParseHundredths("-" + u) == Some(0 - v)
  {
    assert ("-" + u)[1..] == u;
  }

  lemma NonNegativeRoundTrip(cents: int)
    requires cents >= 0
    ensures ParseHundredths(FormatHundredths(cents)) == Some(cents)
  {
    var s := FormatHundredths(cents);
    var u := Unsigned(cents);
    UnsignedRoundTrip(cents);
    assert s == u;
    assert s[0] != '-' by { assert IsDigit(u[0]); }
    assert ParseUnsigned(s) == Some(cents);
  }

  /** Two decimals always: the text gives back the exact amount. */
  lemma FormatHundredthsRoundTrip(cents: int)
    ensures ParseHundredths(FormatHundredths(cents)) == Some(cents)
  {
    if cents < 0 { NegativeRoundTrip(cents); } else { NonNegativeRoundTrip(cents); }
  }
}

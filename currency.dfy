/*
 * The debit command's currency conversion: amounts pivot through tenge
 * (KZT), whose rate is 1. Amounts are exact reals, so the float rounding
 * of the conversion is not modelled.
 */
module Currency {
  import opened AppErrors
  import opened Text

  /** The exchange-rate table: tenge per unit of each currency. */
  const Rates: map<string, real> := map["USD" := 538.0, "EUR" := 580.0, "RUB" := 5.8, "CNY" := 75.0, "KZT" := 1.0]

  predicate Listed(code: string)
  {
    code in Rates
  }

  /** A missing code reads as 0, as an absent key of a Go map does. */
  function Rate(code: string): (r: real)
    ensures Listed(code) ==> r > 0.0
    ensures !Listed(code) ==> r == 0.0
  {
    if code in Rates then Rates[code] else 0.0
  }

  /**
   * The conversion between two codes already upper-cased. A target missing
   * from the table divides by a zero rate, which in floating point gives an
   * infinity or NaN; `None` stands for that non-finite result.
   */
  function ConvertCodes(amount: real, f: string, t: string): (r: Option<real>)
    ensures r.None? <==> f != t && !Listed(t)
    ensures f == t ==> r == Some(amount)
    ensures f != t && !Listed(f) && Listed(t) ==> r == Some(0.0)
  {
    if f == t then Some(amount)
    else if !Listed(t) then None
    else Some(amount * Rate(f) / Rate(t))
  }

  /** `convertCurrency`: both codes upper-cased, then converted. */
  function Convert(amount: real, from: string, to: string): (r: Option<real>)
    ensures ToUpper(from) == ToUpper(to) ==> r == Some(amount)
    ensures r.None? <==> ToUpper(from) != ToUpper(to) && !Listed(ToUpper(to))
  {
    ConvertCodes(amount, ToUpper(from), ToUpper(to))
  }

  lemma DivisionUndone(x: real, y: real)
    requires y > 0.0
    ensures (x / y) * y == x
  {
  }

  /** Between different codes the result is worth, in tenge, what the amount was worth. */
  lemma ConvertKeepsValue(amount: real, f: string, t: string)
    requires f != t && Listed(t)
    ensures ConvertCodes(amount, f, t).Some? && ConvertCodes(amount, f, t).value * Rate(t) == amount * Rate(f)
  {
    DivisionUndone(amount * Rate(f), Rate(t));
  }

  /** Between two listed currencies, converting there and back gives the amount again. */
  lemma RoundTrip(amount: real, f: string, t: string)
    requires Listed(f) && Listed(t)
    ensures ConvertCodes(ConvertCodes(amount, f, t).value, t, f) == Some(amount)
  {
    if f != t {
      var x, y := Rate(f), Rate(t);
      DivisionUndone(amount * x, y);
      assert (amount * x / y) * y == amount * x;
      DivisionUndone(amount, x);
    }
  }

  /** Converting to tenge multiplies by the source rate. */
  lemma ToTengeMultiplies(amount: real, f: string)
    requires Listed(f)
    ensures ConvertCodes(amount, f, "KZT") == Some(amount * Rates[f])
  {
  }

  /** A conversion is the same as going to tenge first and then on to the target. */
  lemma PivotsThroughTenge(amount: real, f: string, t: string)
    requires Listed(f) && Listed(t)
    ensures ConvertCodes(amount, f, t) == ConvertCodes(ConvertCodes(amount, f, "KZT").value, "KZT", t)
  {
  }

  /** One dollar is 538 tenge, whatever the case of the codes. */
  lemma DollarInTenge()
    ensures ToUpper("usd") == "USD" && ToUpper("kzt") == "KZT"
    ensures Convert(1.0, "usd", "kzt") == Some(538.0)
  {
    assert ToUpper("usd") == "USD";
    assert ToUpper("kzt") == "KZT";
  }
}

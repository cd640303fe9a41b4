/** Currency conversion through the GBP base and the token arithmetic
    (100 tokens per pound). Amounts are exact reals, so the properties
    below are statements about the arithmetic the code intends, not about
    IEEE doubles. */
module Currencies {

  datatype Currency = GBP | EUR | USD

  /** How many units of `c` one pound buys. */
  function Rate(c: Currency): real {
    match c
    case GBP => 1.0
    case EUR => 1.15
    case USD => 1.33
  }

  function Code(c: Currency): string {
    match c
    case GBP => "GBP"
    case EUR => "EUR"
    case USD => "USD"
  }

  const TokensPerGBP: real := 100.0

  /** `convertToGBP`. */
  function ToGBP(amount: real, from: Currency): (r: real)
    ensures r * Rate(from) == amount
  {
    if from == GBP then amount else amount / Rate(from)
  }

  /** `convertFromGBP`. */
  function FromGBP(amount: real, to: Currency): (r: real)
    ensures ToGBP(r, to) == amount
  {
    if to == GBP then amount else amount * Rate(to)
  }

  /** `Math.round`: the nearest integer, halves rounded up. */
  function Round(x: real): (r: int)
    ensures x - 0.5 < r as real <= x + 0.5
  {
    (x + 0.5).Floor
  }

  /** `calculateTokens`: the amount in pounds, times 100, rounded. */
  function CalculateTokens(amount: real, c: Currency): (r: int)
    ensures ToGBP(amount, c) * TokensPerGBP - 0.5 < r as real <= ToGBP(amount, c) * TokensPerGBP + 0.5
  {
    Round(ToGBP(amount, c) * TokensPerGBP)
  }

  /** `calculateAmountForTokens`. */
  function AmountForTokens(tokens: real, c: Currency): (r: real)
    ensures ToGBP(r, c) * TokensPerGBP == tokens
  {
    FromGBP(tokens / TokensPerGBP, c)
  }

  /** `getMinimumAmount`. */
  function MinimumAmount(c: Currency): (r: real)
    ensures r > 0.0 && CalculateTokens(r, c) == 1
  {
    0.01
  }

  // ---------------------------------------------------------------------

  /** Every rate is positive, and the GBP rate is exactly 1 (no other is). */
  lemma RatesPositive(c: Currency)
    ensures Rate(c) > 0.0
    ensures Rate(c) == 1.0 <==> c == GBP
  {
  }

  /** GBP is the identity for both conversions. */
  lemma GBPIsIdentity(x: real)
    ensures ToGBP(x, GBP) == x && FromGBP(x, GBP) == x
  {
  }

  /** Converting into a currency and back again is the identity, both ways. */
  lemma ConversionRoundTrip(x: real, c: Currency)
    ensures ToGBP(FromGBP(x, c), c) == x
    ensures FromGBP(ToGBP(x, c), c) == x
  {
    RatesPositive(c);
  }

  /** Rounding an integer gives it back. */
  lemma RoundOfInteger(n: int)
    ensures Round(n as real) == n
  {
  }

  lemma RoundMonotone(x: real, y: real)
    requires x <= y
    ensures Round(x) <= Round(y)
  {
  }

  /** Conversion to pounds is increasing. */
  lemma ToGBPMonotone(a: real, b: real, c: Currency)
    requires a <= b
    ensures ToGBP(a, c) <= ToGBP(b, c)
  {
    RatesPositive(c);
    if c != GBP {
      assert a / Rate(c) <= b / Rate(c) by {
        assert (b - a) / Rate(c) >= 0.0;
      }
    }
  }

  /** `calculateTokens` is non-decreasing in the amount. */
  lemma TokensMonotone(a: real, b: real, c: Currency)
    requires a <= b
    ensures CalculateTokens(a, c) <= CalculateTokens(b, c)
  {
    ToGBPMonotone(a, b, c);
    RoundMonotone(ToGBP(a, c) * TokensPerGBP, ToGBP(b, c) * TokensPerGBP);
  }

  /** One pound buys 100 tokens, and a GBP amount buys round(100 x). */
  lemma TokensOfGBP(x: real)
    ensures CalculateTokens(x, GBP) == Round(100.0 * x)
    ensures CalculateTokens(1.0, GBP) == 100
  {
  }

  /** The amount quoted for `t` tokens buys exactly `t` tokens. */
  lemma TokensForAmountRoundTrip(t: int, c: Currency)
    ensures CalculateTokens(AmountForTokens(t as real, c), c) == t
  {
    ConversionRoundTrip(t as real / TokensPerGBP, c);
    RoundOfInteger(t);
  }

  /** The minimum amount is one hundredth in every currency. */
  lemma MinimumAmountUniform(c: Currency)
    ensures MinimumAmount(c) == 0.01 == MinimumAmount(GBP)
  {
  }
}

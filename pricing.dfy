/** The pricing section: the token line under each plan, and the custom
    card whose price the visitor types and which follows the selected
    currency. `parseFloat` is a parameter (its result, `None` for NaN), and
    so is the plan's price text. */
module Pricing {
  import opened Common
  import opened Currencies

  const TokensPerInvoice: int := 10

  /** `Math.round(tokens / TOKENS_PER_INVOICE)`. */
  function InvoiceEstimate(tokens: int): (r: int)
    ensures 10 * r - 5 <= tokens < 10 * r + 5
  {
    var x := tokens as real / TokensPerInvoice as real;
    assert x * 10.0 == tokens as real;
    Round(x)
  }

  /** What `TokensLine` shows: the tokens and the invoices, `None` where the
      number is NaN. */
  datatype TokenCount = TokenCount(tokens: Option<int>, invoices: Option<int>)

  /** `TokensLine`: a plan called "free" in any case shows nothing, any
      other the tokens its price buys in pounds; the display currency is
      not used. */
  function TokensLine(planName: string, amountInGBP: Option<real>, currency: Currency): (r: TokenCount)
    ensures ToLower(planName) == "free" ==> r == TokenCount(Some(0), Some(0))
    ensures ToLower(planName) != "free" && amountInGBP.None? ==> r == TokenCount(None, None)
    ensures ToLower(planName) != "free" && amountInGBP.Some? ==>
      r.tokens == Some(CalculateTokens(amountInGBP.value, GBP)) && r.invoices == Some(InvoiceEstimate(r.tokens.value))
  {
    if ToLower(planName) == "free" then TokenCount(Some(0), Some(InvoiceEstimate(0)))
    else if amountInGBP.None? then TokenCount(None, None)
    else
      var tokens := CalculateTokens(amountInGBP.value, GBP);
      TokenCount(Some(tokens), Some(InvoiceEstimate(tokens)))
  }

  lemma FreeText()
    ensures ToLower("Free") == "free" && ToLower("FREE") == "free"
  {
  }

  /** The line is the same in every display currency; a whole-pound price
      of `n` shows `100 n` tokens and `10 n` invoices, and a plan named
      "Free" or "FREE" shows none. */
  lemma TokensLineFacts(planName: string, n: nat, c: Currency)
    requires ToLower(planName) != "free"
    ensures TokensLine(planName, Some(n as real), c) == TokensLine(planName, Some(n as real), GBP)
    ensures TokensLine(planName, Some(n as real), c) == TokenCount(Some(100 * n), Some(10 * n))
    ensures TokensLine("Free", Some(n as real), c) == TokenCount(Some(0), Some(0))
    ensures TokensLine("FREE", Some(n as real), c) == TokenCount(Some(0), Some(0))
  {
    FreeText();
    RoundOfInteger(100 * n);
    RoundOfInteger(10 * n);
    assert (100 * n) as real / 10.0 == (10 * n) as real;
  }

  // ---------------------------------------------------------------------
  // the custom card

  const MinPrice: real := 0.01

  /** The custom card's state: its price and the currency it was typed in. */
  datatype CardState = CardState(price: real, prevCurrency: Currency)

  function InitialCard(currency: Currency): CardState {
    CardState(MinPrice, currency)
  }

  /** `Math.max(0, calculateTokens(price, currency))`. */
  function CustomTokens(s: CardState, currency: Currency): (r: int)
    ensures r >= 0
    ensures r >= CalculateTokens(s.price, currency)
  {
    var t := CalculateTokens(s.price, currency);
    if 0 >= t then 0 else t
  }

  /** `onChange`, given `parseFloat(e.target.value || '0')`: NaN is
      ignored, any number is raised to the minimum. */
  function PriceEdited(s: CardState, parsed: Option<real>): (r: CardState)
    ensures parsed.None? ==> r == s
    ensures parsed.Some? ==> (
      && r.prevCurrency == s.prevCurrency && r.price >= MinPrice
      && (parsed.value >= MinPrice ==> r.price == parsed.value)
      && (parsed.value < MinPrice ==> r.price == MinPrice))
  {
    if parsed.None? then s
    else s.(price := if MinPrice >= parsed.value then MinPrice else parsed.value)
  }

  /** The currency effect: a price typed in another currency is carried
      over through pounds and raised to the minimum. */
  function CurrencySwitched(s: CardState, currency: Currency): (r: CardState)
    ensures s.prevCurrency == currency ==> r == s
    ensures r.prevCurrency == currency
    ensures s.prevCurrency != currency ==> r.price >= MinPrice
  {
    if s.prevCurrency == currency then s
    else
      var gbpAmount := ToGBP(s.price, s.prevCurrency);
      var newPrice := FromGBP(gbpAmount, currency);
      CardState(if MinPrice >= newPrice then MinPrice else newPrice, currency)
  }

  /** The price never drops below the minimum. */
  predicate CardValid(s: CardState) {
    s.price >= MinPrice
  }

  lemma CardValidKept(s: CardState, parsed: Option<real>, c: Currency)
    requires CardValid(s)
    ensures CardValid(InitialCard(c)) && CardValid(PriceEdited(s, parsed)) && CardValid(CurrencySwitched(s, c))
  {
  }

  /** A currency switch keeps the value in pounds unless the minimum kicks
      in, and switching back restores the price exactly. */
  lemma SwitchKeepsValue(s: CardState, c: Currency)
    requires CardValid(s)
    ensures var r := CurrencySwitched(s, c);
      FromGBP(ToGBP(s.price, s.prevCurrency), c) >= MinPrice ==> ToGBP(r.price, c) == ToGBP(s.price, s.prevCurrency)
    ensures var r := CurrencySwitched(s, c);
      FromGBP(ToGBP(s.price, s.prevCurrency), c) >= MinPrice ==> CurrencySwitched(r, s.prevCurrency) == s
  {
    var g := ToGBP(s.price, s.prevCurrency);
    ConversionRoundTrip(g, c);
    ConversionRoundTrip(s.price, s.prevCurrency);
  }

  /** When the minimum kicks in, a round trip does not restore the price:
      a euro cent is less than a penny, so a switch to pounds lifts it to
      0.01 and the trip back gives 0.0115 euros. */
  lemma SwitchCanRaisePrice()
    ensures CurrencySwitched(CardState(0.01, EUR), GBP) == CardState(0.01, GBP)
    ensures CurrencySwitched(CurrencySwitched(CardState(0.01, EUR), GBP), EUR) == CardState(0.0115, EUR)
  {
  }

  class CustomHomeCard {
    var price: real
    var prevCurrency: Currency

    function State(): CardState
      reads this
    {
      CardState(price, prevCurrency)
    }

    predicate Valid()
      reads this
    {
      CardValid(State())
    }

    constructor (currency: Currency)
      ensures Valid() && State() == InitialCard(currency)
    {
      price := MinPrice;
      prevCurrency := currency;
    }

    method OnChange(parsed: Option<real>)
      requires Valid()
      modifies this
      ensures Valid() && State() == PriceEdited(old(State()), parsed)
    {
      if parsed.None? {
        return;
      }
      var v := parsed.value;
      price := if MinPrice >= v then MinPrice else v;
    }

    method CurrencyEffect(currency: Currency)
      requires Valid()
      modifies this
      ensures Valid() && State() == CurrencySwitched(old(State()), currency)
    {
      if prevCurrency != currency {
        var gbpAmount := ToGBP(price, prevCurrency);
        var newPrice := FromGBP(gbpAmount, currency);
        price := if MinPrice >= newPrice then MinPrice else newPrice;
        prevCurrency := currency;
      }
    }
  }
}

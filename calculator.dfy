/** The token calculator page: the number formatting it shows tokens with,
    the £5–£500 range of amounts, and the two inputs (an amount and a number
    of invoices) that update each other. The component's state is a value
    with one transition per handler and per scheduled callback; the class
    below holds it in fields and its methods are proved to follow those
    transitions. `parseFloat` is a parameter (its result, `None` for NaN). */
module Calculator {
  import opened Common
  import opened Currencies

  // ---------------------------------------------------------------------
  // formatting

  /** `formatNumber`: thousands grouped with a space from 1000 up. */
  function FormatNumber(n: int): (r: string)
    ensures Remove(r, ' ') == IntToString(n)
  {
    if n >= 1000 then
      NatDigits(n);
      GroupThousandsRemove(IntToString(n), ' ');
      GroupThousands(IntToString(n), ' ')
    else
      var m: nat := if n < 0 then -n else n;
      NatDigits(m);
      assert ' ' !in IntToString(n) by {
        assert n < 0 ==> IntToString(n) == "-" + NatToString(m);
      }
      RemoveAbsent(IntToString(n), ' ');
      IntToString(n)
  }

  lemma NatDigits(n: nat)
    ensures AllDigits(NatToString(n)) && NatToString(n) != []
    ensures ' ' !in NatToString(n)
  {
    var s := NatToString(n);
    assert AllDigits(s);
    assert forall k :: 0 <= k < |s| ==> s[k] != ' ';
  }

  lemma OneMoreDigit(n: nat)
    requires n >= 10
    ensures |NatToString(n)| == |NatToString(n / 10)| + 1
  {
  }

  /** Four or more digits from 1000 on. */
  lemma LongNumber(n: nat)
    requires n >= 1000
    ensures |NatToString(n)| >= 4
  {
    OneMoreDigit(n);
    OneMoreDigit(n / 10);
    OneMoreDigit(n / 100);
    assert n / 100 / 10 >= 1;
  }

  /** Without its spaces the formatted number is the plain decimal; it has
      spaces exactly from 1000 on; and there the spaces sit at every fourth
      place from the right, so the first group has one to three digits and
      every later group three. */
  lemma FormatNumberShape(n: nat)
    ensures Remove(FormatNumber(n), ' ') == NatToString(n)
    ensures ' ' in FormatNumber(n) <==> n >= 1000
    ensures n < 1000 ==> FormatNumber(n) == NatToString(n)
    ensures var r := FormatNumber(n);
      n >= 1000 ==> |r| % 4 != 0 && forall i :: 0 <= i < |r| ==> (r[i] == ' ' <==> (|r| - i) % 4 == 0)
  {
    var s := NatToString(n);
    NatDigits(n);
    if n >= 1000 {
      GroupThousandsShape(s, ' ');
      LongNumber(n);
      var r := FormatNumber(n);
      assert r[|r| - 4] == ' ';
    } else {
      RemoveAbsent(s, ' ');
    }
  }

  // ---------------------------------------------------------------------
  // amounts

  const MinAmountGBP: real := 5.0
  const MaxAmountGBP: real := 500.0

  function MinAmount(c: Currency): real {
    FromGBP(MinAmountGBP, c)
  }

  function MaxAmount(c: Currency): real {
    FromGBP(MaxAmountGBP, c)
  }

  /** The bounds are £5 and £500 in every currency. */
  lemma BoundsInPounds(c: Currency)
    ensures ToGBP(MinAmount(c), c) == 5.0 && ToGBP(MaxAmount(c), c) == 500.0
    ensures 5.0 <= MinAmount(c) < MaxAmount(c)
    ensures MinAmount(c) * 100.0 == (MinAmount(c) * 100.0).Floor as real
    ensures MaxAmount(c) * 100.0 == (MaxAmount(c) * 100.0).Floor as real
  {
    ConversionRoundTrip(5.0, c);
    ConversionRoundTrip(500.0, c);
  }

  /** `Math.max(minAmount, Math.min(maxAmount, v))`. */
  function Clamp(v: real, c: Currency): (r: real)
    ensures MinAmount(c) <= r <= MaxAmount(c)
    ensures MinAmount(c) <= v <= MaxAmount(c) ==> r == v
    ensures v < MinAmount(c) ==> r == MinAmount(c)
    ensures v > MaxAmount(c) ==> r == MaxAmount(c)
  {
    BoundsInPounds(c);
    var m := if MaxAmount(c) <= v then MaxAmount(c) else v;
    if MinAmount(c) >= m then MinAmount(c) else m
  }

  /** The state of the page. */
  datatype CalcState = CalcState(
    currency: Currency,
    amount: real,
    invoicesNeeded: int,
    fromAmount: bool,    // isUpdatingFromAmount
    fromInvoices: bool)  // isUpdatingFromInvoices

  const Initial := CalcState(GBP, 50.0, 5, false, false)

  function Tokens(s: CalcState): int {
    CalculateTokens(s.amount, s.currency)
  }

  /** `calculatedInvoices`: `Math.floor(tokens / 10)`. */
  function CalculatedInvoices(s: CalcState): int {
    Tokens(s) / 10
  }

  /** The invoice count an amount edit writes, `Math.floor(clamped * 100 / 10)`. */
  function InvoicesForAmount(amount: real): int {
    (amount * 100.0 / 10.0).Floor
  }

  /** `handleAmountChange`, given `parseFloat(value)`. */
  function AmountChanged(s: CalcState, parsed: Option<real>): (r: CalcState)
    ensures r.currency == s.currency && r.fromInvoices == s.fromInvoices && r.fromAmount
    ensures MinAmount(s.currency) <= r.amount <= MaxAmount(s.currency)
    ensures r.invoicesNeeded == InvoicesForAmount(r.amount) && r.invoicesNeeded >= 50
  {
    var numValue := parsed.GetOr(0.0);
    var clamped := Clamp(numValue, s.currency);
    s.(amount := clamped, invoicesNeeded := InvoicesForAmount(clamped), fromAmount := true)
  }

  /** `Math.round(x * 100) / 100`. */
  function RoundCents(x: real): real {
    Round(x * 100.0) as real / 100.0
  }

  /** `handleInvoicesChange`: `parseInt(value) || 0`, at least one invoice,
      and the amount those invoices cost in tenths, clamped and rounded to
      cents. */
  function InvoicesChanged(s: CalcState, value: string): (r: CalcState)
    ensures r.currency == s.currency && r.fromAmount == s.fromAmount && r.fromInvoices
    ensures r.invoicesNeeded >= 1
    ensures r.invoicesNeeded == if ParseInt(value).Some? && ParseInt(value).value >= 1 then ParseInt(value).value else 1
    ensures r.amount == RoundCents(Clamp(r.invoicesNeeded as real * 0.1, s.currency))
  {
    var numValue := ParseInt(value).GetOr(0);
    var newInvoices := if 1 >= numValue then 1 else numValue;
    var newAmount := Clamp(newInvoices as real * 0.1, s.currency);
    s.(invoicesNeeded := newInvoices, amount := RoundCents(newAmount), fromInvoices := true)
  }

  /** `handleCurrencyChange`: the amount stays as typed. */
  function CurrencyChanged(s: CalcState, c: Currency): (r: CalcState)
    ensures r.currency == c && r.amount == s.amount && r.invoicesNeeded == s.invoicesNeeded
  {
    s.(currency := c)
  }

  /** The `setTimeout(…, 0)` callbacks that end an update. */
  function AmountSettled(s: CalcState): (r: CalcState)
    ensures !r.fromAmount && r.(fromAmount := s.fromAmount) == s
  {
    s.(fromAmount := false)
  }

  function InvoicesSettled(s: CalcState): (r: CalcState)
    ensures !r.fromInvoices && r.(fromInvoices := s.fromInvoices) == s
  {
    s.(fromInvoices := false)
  }

  /** The effect that follows the amount: when no update is under way and
      the token count gives a different positive number of invoices, that
      number is shown. */
  function Synced(s: CalcState): (r: CalcState)
    ensures r.(invoicesNeeded := s.invoicesNeeded) == s
    ensures r.invoicesNeeded != s.invoicesNeeded ==>
      !s.fromAmount && !s.fromInvoices && r.invoicesNeeded == CalculatedInvoices(s) > 0
    ensures !s.fromAmount && !s.fromInvoices && CalculatedInvoices(s) > 0 ==> r.invoicesNeeded == CalculatedInvoices(s)
  {
    if !s.fromInvoices && !s.fromAmount then
      var newInvoices := Tokens(s) / 10;
      if newInvoices != s.invoicesNeeded && newInvoices > 0 then s.(invoicesNeeded := newInvoices) else s
    else s
  }

  // ---------------------------------------------------------------------
  // properties

  /** The invoice count shown is never below one, whatever happens. */
  predicate Inv(s: CalcState) {
    s.invoicesNeeded >= 1
  }

  lemma InvPreserved(s: CalcState, parsed: Option<real>, value: string, c: Currency)
    requires Inv(s)
    ensures Inv(Initial)
    ensures Inv(AmountChanged(s, parsed)) && Inv(InvoicesChanged(s, value)) && Inv(CurrencyChanged(s, c))
    ensures Inv(AmountSettled(s)) && Inv(InvoicesSettled(s)) && Inv(Synced(s))
  {
  }

  /** Text that is not a number, and a zero, both count as nothing: the
      amount goes to the minimum. */
  lemma NonNumericAmount(s: CalcState)
    ensures AmountChanged(s, None).amount == MinAmount(s.currency)
    ensures AmountChanged(s, Some(0.0)).amount == MinAmount(s.currency)
  {
    BoundsInPounds(s.currency);
  }

  /** An amount at least £5 buys at least 500 tokens, so 50 invoices. */
  lemma EnoughForInvoices(amount: real, c: Currency)
    requires amount >= MinAmount(c)
    ensures CalculateTokens(amount, c) >= 500
  {
    BoundsInPounds(c);
    ToGBPMonotone(MinAmount(c), amount, c);
    RoundOfInteger(500);
    RoundMonotone(500.0, ToGBP(amount, c) * TokensPerGBP);
  }

  /** Once an amount edit has settled, the effect replaces the count the
      edit wrote with the count the tokens give. */
  lemma AmountEditSettles(s: CalcState, parsed: Option<real>)
    requires !s.fromInvoices
    ensures var t := AmountSettled(AmountChanged(s, parsed));
      Synced(t).invoicesNeeded == CalculatedInvoices(t) && Synced(t).amount == t.amount
  {
    var t := AmountSettled(AmountChanged(s, parsed));
    EnoughForInvoices(t.amount, t.currency);
  }

  /** The count an amount edit writes ignores the currency: 11.50 EUR is
      £10, 1000 tokens and 100 invoices, but the edit writes 115. */
  lemma AmountEditIgnoresCurrency(s: CalcState)
    requires s.currency == EUR
    ensures var t := AmountChanged(s, Some(11.5));
      t.invoicesNeeded == 115 && CalculatedInvoices(t) == 100
  {
    var t := AmountChanged(s, Some(11.5));
    BoundsInPounds(EUR);
    assert t.amount == 11.5;
    assert ToGBP(11.5, EUR) == 10.0;
  }

  /** Rounding to cents moves a value by at most half a cent, and keeps
      it between two bounds that are whole numbers of cents. */
  lemma RoundCentsWithin(x: real, lo: real, hi: real)
    requires lo <= x <= hi
    requires lo * 100.0 == (lo * 100.0).Floor as real && hi * 100.0 == (hi * 100.0).Floor as real
    ensures lo <= RoundCents(x) <= hi
    ensures x - 0.005 < RoundCents(x) <= x + 0.005
  {
    RoundOfInteger((lo * 100.0).Floor);
    RoundOfInteger((hi * 100.0).Floor);
    RoundMonotone(lo * 100.0, x * 100.0);
    RoundMonotone(x * 100.0, hi * 100.0);
  }

  /** An amount in range stays in range when rounded to cents. */
  lemma RoundCentsInRange(x: real, c: Currency)
    requires MinAmount(c) <= x <= MaxAmount(c)
    ensures MinAmount(c) <= RoundCents(x) <= MaxAmount(c)
    ensures x - 0.005 < RoundCents(x) <= x + 0.005
  {
    BoundsInPounds(c);
    RoundCentsWithin(x, MinAmount(c), MaxAmount(c));
  }

  /** The amount an invoice edit writes is in range, and within half a
      cent of the clamped price of the invoices. */
  lemma InvoicesEditAmount(s: CalcState, value: string)
    ensures var r := InvoicesChanged(s, value);
      var target := Clamp(r.invoicesNeeded as real * 0.1, s.currency);
      && MinAmount(s.currency) <= r.amount <= MaxAmount(s.currency)
      && target - 0.005 < r.amount <= target + 0.005
  {
    var r := InvoicesChanged(s, value);
    var x := Clamp(r.invoicesNeeded as real * 0.1, s.currency);
    assert r.amount == RoundCents(x);
    RoundCentsInRange(x, s.currency);
  }

  // ---------------------------------------------------------------------
  // the component

  class Calculator {
    var currency: Currency
    var amount: real
    var invoicesNeeded: int
    var fromAmount: bool
    var fromInvoices: bool

    function State(): CalcState
      reads this
    {
      CalcState(currency, amount, invoicesNeeded, fromAmount, fromInvoices)
    }

    constructor ()
      ensures State() == Initial
    {
      currency := GBP;
      amount := 50.0;
      invoicesNeeded := 5;
      fromAmount := false;
      fromInvoices := false;
    }

    method HandleAmountChange(parsed: Option<real>)
      modifies this
      ensures State() == AmountChanged(old(State()), parsed)
    {
      var numValue := if parsed.Some? then parsed.value else 0.0;
      var minAmount := MinAmount(currency);
      var maxAmount := MaxAmount(currency);
      var smaller := if maxAmount <= numValue then maxAmount else numValue;
      var clampedValue := if minAmount >= smaller then minAmount else smaller;
      fromAmount := true;
      amount := clampedValue;
      invoicesNeeded := (clampedValue * 100.0 / 10.0).Floor;
    }

    method HandleInvoicesChange(value: string)
      modifies this
      ensures State() == InvoicesChanged(old(State()), value)
    {
      var numValue := ParseInt(value).GetOr(0);
      var newInvoices := if 1 >= numValue then 1 else numValue;
      fromInvoices := true;
      invoicesNeeded := newInvoices;
      var newAmount := Clamp(newInvoices as real * 0.1, currency);
      amount := Round(newAmount * 100.0) as real / 100.0;
    }

    method HandleCurrencyChange(c: Currency)
      modifies this
      ensures State() == CurrencyChanged(old(State()), c)
    {
      currency := c;
    }

    method AmountTimer()
      modifies this
      ensures State() == AmountSettled(old(State()))
    {
      fromAmount := false;
    }

    method InvoicesTimer()
      modifies this
      ensures State() == InvoicesSettled(old(State()))
    {
      fromInvoices := false;
    }

    method SyncInvoices()
      modifies this
      ensures State() == Synced(old(State()))
    {
      if !fromInvoices && !fromAmount {
        var newInvoices := CalculateTokens(amount, currency) / 10;
        if newInvoices != invoicesNeeded && newInvoices > 0 {
          invoicesNeeded := newInvoices;
        }
      }
    }
  }
}

/** The table of token packages offered for sale, and the facts about it
    that the rest of the storefront relies on. */
module Plans {
  import opened Common
  import opened Currencies

  datatype Plan = Plan(
    id: string,
    name: string,
    baseGBP: real,
    baseEUR: real,
    baseUSD: real,
    tokens: int,
    popular: bool,
    cta: string,
    bullets: seq<string>)

  const Beginner: Plan := Plan("price_starter_10", "Beginner", 10.0, 11.50, 13.30, 1000, false, "Buy tokens",
    ["Top up 1,000 tokens (~100 invoices)", "No subscription", "Draft/preview free"])

  const Pro: Plan := Plan("price_pro_50", "Pro", 50.0, 57.50, 66.50, 5000, true, "Buy tokens",
    ["Top up 5,000 tokens (~500 invoices)", "Templates & logo", "Payment links", "Read receipts"])

  const Business: Plan := Plan("price_business_100", "Business", 100.0, 115.00, 133.00, 10000, false, "Buy tokens",
    ["Top up 10,000 tokens (~1,000 invoices)", "Teams & roles", "Integrations (Stripe/Wise)", "API & webhooks"])

  /** `pricingPlans`, in the order the page lists them. */
  const PricingPlans: seq<Plan> := [Beginner, Pro, Business]

  /** The headline bullet a plan with `tokens` tokens should carry: the
      token count and a tenth of it as invoices, grouped with commas. */
  function HeadlineBullet(tokens: nat): string {
    "Top up " + GroupThousands(NatToString(tokens), ',') + " tokens (~"
      + GroupThousands(NatToString(tokens / 10), ',') + " invoices)"
  }

  /** Every plan's token count is 100 per pound of its GBP price, which is
      what `calculateTokens` gives for that price. */
  lemma PlanTokensMatchPrice()
    ensures forall p :: p in PricingPlans ==>
      p.tokens as real == 100.0 * p.baseGBP && p.tokens == CalculateTokens(p.baseGBP, GBP)
  {
    forall p | p in PricingPlans
      ensures p.tokens as real == 100.0 * p.baseGBP && p.tokens == CalculateTokens(p.baseGBP, GBP)
    {
      TokensOfGBP(p.baseGBP);
      RoundOfInteger(p.tokens);
    }
  }

  /** The EUR and USD prices are the GBP price converted at the fixed rates. */
  lemma PlanPricesMatchRates()
    ensures forall p :: p in PricingPlans ==>
      p.baseEUR == FromGBP(p.baseGBP, EUR) && p.baseUSD == FromGBP(p.baseGBP, USD)
  {
  }

  /** Exactly one plan is marked popular, and it is Pro. */
  lemma OnlyProIsPopular()
    ensures forall i :: 0 <= i < |PricingPlans| ==> (PricingPlans[i].popular <==> PricingPlans[i].name == "Pro")
    ensures |set i | 0 <= i < |PricingPlans| && PricingPlans[i].popular| == 1
  {
    var popular := set i | 0 <= i < |PricingPlans| && PricingPlans[i].popular;
    assert popular == {1};
  }

  /** Plan ids are pairwise distinct, and the plans are listed cheapest
      first, strictly. */
  lemma PlansDistinctAndOrdered()
    ensures forall i, j :: 0 <= i < j < |PricingPlans| ==>
      PricingPlans[i].id != PricingPlans[j].id && PricingPlans[i].baseGBP < PricingPlans[j].baseGBP
  {
  }

  /** Appending a zero digit multiplies by ten. */
  lemma TimesTen(n: nat, text: string)
    requires 1 <= n && NatToString(n) == text
    ensures NatToString(10 * n) == text + "0"
  {
    assert (10 * n) / 10 == n && (10 * n) % 10 == 0;
  }

  /** Four to six digits get one separator, before the last three. */
  lemma GroupedOnce(lead: string, tail: string, sep: char)
    requires 1 <= |lead| <= 3 && |tail| == 3
    ensures GroupThousands(lead + tail, sep) == lead + [sep] + tail
  {
    var s := lead + tail;
    assert s[..|s| - 3] == lead;
    assert s[|s| - 3..] == tail;
  }

  lemma PowersOfTen()
    ensures NatToString(100) == "100" && NatToString(1000) == "1000"
    ensures NatToString(10000) == "10000"
  {
    assert NatToString(1) == "1";
    TimesTen(1, "1");
    TimesTen(10, "10");
    TimesTen(100, "100");
    TimesTen(1000, "1000");
  }

  lemma FiveThousand()
    ensures NatToString(500) == "500" && NatToString(5000) == "5000"
  {
    assert NatToString(5) == "5";
    TimesTen(5, "5");
    TimesTen(50, "50");
    TimesTen(500, "500");
  }

  /** The headline of a plan, given its two grouped numbers. */
  lemma HeadlineOf(tokens: nat, lead: string, tail: string, invoices: string, bullet: string)
    requires 1 <= |lead| <= 3 && |tail| == 3
    requires NatToString(tokens) == lead + tail
    requires GroupThousands(NatToString(tokens / 10), ',') == invoices
    requires bullet == "Top up " + lead + "," + tail + " tokens (~" + invoices + " invoices)"
    ensures HeadlineBullet(tokens) == bullet
  {
    GroupedOnce(lead, tail, ',');
  }

  lemma StarterText()
    ensures Beginner.bullets[0] == "Top up " + "1" + "," + "000" + " tokens (~" + "100" + " invoices)"
    ensures "1000" == "1" + "000"
  {
  }

  lemma ProText()
    ensures Pro.bullets[0] == "Top up " + "5" + "," + "000" + " tokens (~" + "500" + " invoices)"
    ensures "5000" == "5" + "000"
  {
  }

  lemma BusinessText()
    ensures Business.bullets[0] == "Top up " + "10" + "," + "000" + " tokens (~" + "1,000" + " invoices)"
    ensures "10000" == "10" + "000" && "1,000" == "1" + [','] + "000"
  {
    assert "Top up " + "10" + "," + "000" == "Top up 10,000";
    assert "Top up 10,000" + " tokens (~" == "Top up 10,000 tokens (~";
    assert "Top up 10,000 tokens (~" + "1,000" + " invoices)" == "Top up 10,000 tokens (~1,000 invoices)";
  }

  lemma HeadlineStarter()
    ensures Beginner.bullets[0] == HeadlineBullet(Beginner.tokens)
  {
    PowersOfTen();
    StarterText();
    HeadlineOf(1000, "1", "000", "100", Beginner.bullets[0]);
  }

  lemma HeadlinePro()
    ensures Pro.bullets[0] == HeadlineBullet(Pro.tokens)
  {
    FiveThousand();
    ProText();
    HeadlineOf(5000, "5", "000", "500", Pro.bullets[0]);
  }

  lemma HeadlineBusiness()
    ensures Business.bullets[0] == HeadlineBullet(Business.tokens)
  {
    PowersOfTen();
    BusinessText();
    GroupedOnce("1", "000", ',');
    HeadlineOf(10000, "10", "000", "1,000", Business.bullets[0]);
  }

  /** Each plan's first bullet advertises its tokens and a tenth as many
      invoices. */
  lemma PlanHeadlines()
    ensures forall p :: p in PricingPlans ==>
      p.tokens >= 0 && |p.bullets| >= 1 && p.bullets[0] == HeadlineBullet(p.tokens)
  {
    forall p | p in PricingPlans
      ensures p.tokens >= 0 && |p.bullets| >= 1 && p.bullets[0] == HeadlineBullet(p.tokens)
    {
      if p == Beginner {
        HeadlineStarter();
      } else if p == Pro {
        HeadlinePro();
      } else {
        HeadlineBusiness();
      }
    }
  }
}

/** The help centre's FAQ page: the price line that depends on the
    currency, the category and search filter, the top questions, and the
    page's state (open answers, helpful votes, the contact form). Only the
    pricing answer of the fixed question list is modelled; the filters work
    on any list. */
module Faq {
  import opened Common
  import opened Currencies

  datatype Category = Tokens | Vat | Pdf | Account | Integrations

  /** `FAQCategory | 'all'`. */
  datatype CategoryChoice = All | Only(category: Category)

  datatype FaqItem = FaqItem(id: string, question: string, answer: string, category: Category, top: bool)

  // ---------------------------------------------------------------------
  // the price line

  function CurrencySymbol(c: Currency): string {
    if c == GBP then "£" else if c == EUR then "€" else "$"
  }

  /** The price of 100 tokens as the answer writes it, with a decimal comma. */
  function CurrencyAmount(c: Currency): string {
    if c == GBP then "1,00" else if c == EUR then "1,15" else "1,33"
  }

  function PricingAnswer(c: Currency): (r: string)
    ensures r == "Pay-as-you-go. " + CommaAmount(Round(Rate(c) * 100.0)) + " " + CurrencySymbol(c)
      + " = 100 tokens. Issuing an invoice costs 10 tokens. Tokens never expire."
  {
    PriceLineMatchesRates(c);
    "Pay-as-you-go. " + CurrencyAmount(c) + " " + CurrencySymbol(c)
      + " = 100 tokens. Issuing an invoice costs 10 tokens. Tokens never expire."
  }

  /** The amount text `units,cents`. */
  function CommaAmount(cents: nat): string {
    NatToString(cents / 100) + "," + [DigitChar(cents / 10 % 10), DigitChar(cents % 10)]
  }

  lemma CommaAmounts()
    ensures CommaAmount(100) == "1,00" && CommaAmount(115) == "1,15" && CommaAmount(133) == "1,33"
  {
    assert NatToString(1) == "1";
  }

  /** The amount quoted for 100 tokens is the exchange rate, written with a
      decimal comma, and 100 tokens cost one pound in that currency. */
  lemma PriceLineMatchesRates(c: Currency)
    ensures CurrencyAmount(c) == CommaAmount(Round(Rate(c) * 100.0))
    ensures CalculateTokens(Rate(c), c) == 100
  {
    CommaAmounts();
    RatesPositive(c);
    RoundOfInteger(100);
    assert ToGBP(Rate(c), c) == 1.0;
    if c == GBP {
      RoundOfInteger(100);
    } else if c == EUR {
      RoundOfInteger(115);
    } else {
      RoundOfInteger(133);
    }
  }

  /** Each currency has its own symbol and amount. */
  lemma SymbolsDistinct()
    ensures CurrencySymbol(GBP) == "£" && CurrencySymbol(EUR) == "€" && CurrencySymbol(USD) == "$"
    ensures forall a: Currency, b: Currency :: a != b ==> CurrencyAmount(a) != CurrencyAmount(b)
  {
  }

  // ---------------------------------------------------------------------
  // filtering

  /** `xs.filter(p)`. */
  function Filter(xs: seq<FaqItem>, p: FaqItem -> bool): (r: seq<FaqItem>)
    ensures |r| <= |xs|
    ensures forall x :: x in r <==> x in xs && p(x)
  {
    if xs == [] then []
    else if p(xs[0]) then [xs[0]] + Filter(xs[1..], p)
    else Filter(xs[1..], p)
  }

  /** `a` is `b` with some elements left out, the rest in order. */
  predicate Subsequence(a: seq<FaqItem>, b: seq<FaqItem>)
    decreases |b|
  {
    a == [] || (b != [] && ((a[0] == b[0] && Subsequence(a[1..], b[1..])) || Subsequence(a, b[1..])))
  }

  /** Filtering keeps the order and only removes elements; when every
      element passes, nothing is removed. */
  lemma {:induction false} FilterKeepsOrder(xs: seq<FaqItem>, p: FaqItem -> bool)
    ensures Subsequence(Filter(xs, p), xs)
    ensures (forall x :: x in xs ==> p(x)) ==> Filter(xs, p) == xs
  {
    if xs != [] {
      FilterKeepsOrder(xs[1..], p);
      var r := Filter(xs, p);
      if p(xs[0]) {
        assert r[1..] == Filter(xs[1..], p);
      }
    }
  }

  /** `matchesCategory && matchesSearch`. The emptiness test trims the
      query, the search itself does not. */
  predicate Matches(item: FaqItem, selected: CategoryChoice, query: string) {
    && (selected == All || selected == Only(item.category))
    && (Trim(query) == []
        || Contains(ToLower(item.question), ToLower(query))
        || Contains(ToLower(item.answer), ToLower(query)))
  }

  /** `filteredItems`. */
  function FilteredItems(items: seq<FaqItem>, selected: CategoryChoice, query: string): (r: seq<FaqItem>)
    ensures |r| <= |items|
    ensures forall x :: x in r <==> x in items && Matches(x, selected, query)
  {
    Filter(items, item => Matches(item, selected, query))
  }

  /** An item is shown exactly when it is in the chosen category and the
      query is blank or found, ignoring case, in its question or answer;
      the shown items keep the list's order. */
  lemma FilteredItemsSpec(items: seq<FaqItem>, selected: CategoryChoice, query: string)
    ensures forall x :: x in FilteredItems(items, selected, query) <==> x in items && Matches(x, selected, query)
    ensures Subsequence(FilteredItems(items, selected, query), items)
    ensures selected == All && Trim(query) == [] ==> FilteredItems(items, selected, query) == items
  {
    FilterKeepsOrder(items, item => Matches(item, selected, query));
  }

  /** A query of spaces only does not filter at all. */
  lemma BlankQueryShowsCategory(items: seq<FaqItem>, selected: CategoryChoice, query: string)
    requires forall k :: 0 <= k < |query| ==> IsSpace(query[k])
    ensures forall x :: x in FilteredItems(items, selected, query) <==>
      x in items && (selected == All || selected == Only(x.category))
  {
    TrimBlank(query);
  }

  /** `topItems`. */
  function TopItems(items: seq<FaqItem>): (r: seq<FaqItem>)
    ensures |r| <= |items|
    ensures forall x :: x in r <==> x in items && x.top
  {
    Filter(items, (item: FaqItem) => item.top)
  }

  /** The top items are exactly the items marked `top`, in order. */
  lemma TopItemsSpec(items: seq<FaqItem>)
    ensures forall x :: x in TopItems(items) <==> x in items && x.top
    ensures Subsequence(TopItems(items), items)
  {
    FilterKeepsOrder(items, (item: FaqItem) => item.top);
  }

  // ---------------------------------------------------------------------
  // toggles

  /** Copy the set, then delete the id if present and add it otherwise. */
  function Toggled(s: set<string>, id: string): (r: set<string>)
    ensures id in r <==> id !in s
    ensures forall x :: x != id ==> (x in r <==> x in s)
  {
    if id in s then s - {id} else s + {id}
  }

  /** Toggling twice restores the set. */
  lemma ToggleTwice(s: set<string>, id: string)
    ensures Toggled(Toggled(s, id), id) == s
  {
  }

  /** `prev === itemId ? null : itemId`. */
  function ContactToggled(open: Option<string>, id: string): (r: Option<string>)
    ensures open == Some(id) <==> r == None
    ensures r != None ==> r == Some(id)
  {
    if open == Some(id) then None else Some(id)
  }

  class FaqPage {
    var expandedItems: set<string>
    var helpfulVotes: set<string>
    var showContactForm: Option<string>
    var contactEmail: string
    var contactMessage: string

    constructor ()
      ensures expandedItems == {} && helpfulVotes == {} && showContactForm == None
      ensures contactEmail == [] && contactMessage == []
    {
      expandedItems := {};
      helpfulVotes := {};
      showContactForm := None;
      contactEmail := [];
      contactMessage := [];
    }

    method HandleToggle(itemId: string)
      modifies this
      ensures expandedItems == Toggled(old(expandedItems), itemId)
      ensures helpfulVotes == old(helpfulVotes) && showContactForm == old(showContactForm)
      ensures contactEmail == old(contactEmail) && contactMessage == old(contactMessage)
    {
      var newSet := expandedItems;
      if itemId in newSet {
        newSet := newSet - {itemId};
      } else {
        newSet := newSet + {itemId};
      }
      expandedItems := newSet;
    }

    method HandleHelpful(itemId: string)
      modifies this
      ensures helpfulVotes == Toggled(old(helpfulVotes), itemId)
      ensures expandedItems == old(expandedItems) && showContactForm == old(showContactForm)
      ensures contactEmail == old(contactEmail) && contactMessage == old(contactMessage)
    {
      var newSet := helpfulVotes;
      if itemId in newSet {
        newSet := newSet - {itemId};
      } else {
        newSet := newSet + {itemId};
      }
      helpfulVotes := newSet;
    }

    /** The same toggle on the same set as `HandleHelpful`. */
    method HandleNotHelpful(itemId: string)
      modifies this
      ensures helpfulVotes == Toggled(old(helpfulVotes), itemId)
      ensures expandedItems == old(expandedItems) && showContactForm == old(showContactForm)
      ensures contactEmail == old(contactEmail) && contactMessage == old(contactMessage)
    {
      var newSet := helpfulVotes;
      if itemId in newSet {
        newSet := newSet - {itemId};
      } else {
        newSet := newSet + {itemId};
      }
      helpfulVotes := newSet;
    }

    method HandleContact(itemId: string)
      modifies this
      ensures showContactForm == ContactToggled(old(showContactForm), itemId)
      ensures expandedItems == old(expandedItems) && helpfulVotes == old(helpfulVotes)
      ensures contactEmail == old(contactEmail) && contactMessage == old(contactMessage)
    {
      showContactForm := if showContactForm == Some(itemId) then None else Some(itemId);
    }

    /** Sending the form (the data is only logged) closes and clears it. */
    method HandleSubmitContact()
      modifies this
      ensures showContactForm == None && contactEmail == [] && contactMessage == []
      ensures expandedItems == old(expandedItems) && helpfulVotes == old(helpfulVotes)
    {
      showContactForm := None;
      contactEmail := [];
      contactMessage := [];
    }

    method HandleCancelContact()
      modifies this
      ensures showContactForm == None && contactEmail == [] && contactMessage == []
      ensures expandedItems == old(expandedItems) && helpfulVotes == old(helpfulVotes)
    {
      showContactForm := None;
      contactEmail := [];
      contactMessage := [];
    }
  }
}

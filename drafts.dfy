/** The draft-invoice route: the currency whitelist, the next invoice
    number and the defaults of a new draft. Invoices are a table the route
    appends to; the year (`new Date().getFullYear()`) and the session are
    parameters. */
module Drafts {
  import opened Common
  import opened Js
  import opened Currencies
  import opened CardServ

  // ---------------------------------------------------------------------
  // currency

  predicate Allowed(c: string) {
    c == "GBP" || c == "EUR" || c == "USD"
  }

  /** `safeCurrency`: an allowed currency code is kept, anything else
      becomes "GBP". */
  function SafeCurrency(input: Value): (r: string)
    ensures Allowed(r)
    ensures input.Str? && Allowed(input.s) ==> r == input.s
    ensures !(input.Str? && Allowed(input.s)) ==> r == "GBP"
  {
    if input.Str? && Allowed(input.s) then input.s else "GBP"
  }

  /** `safeCurrency(body.currency || session.user.currency)`. */
  function DraftCurrency(bodyCurrency: Value, sessionCurrency: Value): (r: string)
    ensures Allowed(r)
    ensures Truthy(bodyCurrency) ==> r == SafeCurrency(bodyCurrency)
    ensures !Truthy(bodyCurrency) ==> r == SafeCurrency(sessionCurrency)
  {
    SafeCurrency(Or(bodyCurrency, sessionCurrency))
  }

  // ---------------------------------------------------------------------
  // numbering

  /** `String(n).padStart(width, c)`. */
  function PadStart(s: string, width: nat, c: char): (r: string)
    ensures |r| == if |s| >= width then |s| else width
    ensures r[|r| - |s|..] == s
    ensures forall k :: 0 <= k < |r| - |s| ==> r[k] == c
  {
    if |s| >= width then s else seq(width - |s|, _ => c) + s
  }

  const FirstNumber: int := 245

  /** `s.split("-").pop()`: the text after the last '-'. */
  function LastSegment(s: string): (r: string)
    ensures '-' !in r
  {
    var pieces := Split(s, "-");
    SplitPiecesWithout(s, "-");
    pieces[|pieces| - 1]
  }

  lemma LastSegmentOf(a: string, b: string)
    requires '-' !in b
    ensures LastSegment(a + "-" + b) == b
  {
    SplitLastPiece(a, b, "-");
  }

  /** The sequence number after the latest invoice number `last`:
      `parseInt(last.split("-").pop() || "0", 10) + 1`, or 245 when there is
      no previous number or that sum is 0 or NaN. */
  function NextNum(last: Option<string>): (r: int)
    ensures r >= 1
    ensures last.None? || last == Some([]) ==> r == FirstNumber
  {
    if last.None? || last.value == [] then FirstNumber
    else
      var tail := LastSegment(last.value);
      var text := if tail == [] then "0" else tail;
      ParseIntNonNegative(text);
      var parsed := ParseInt(text);
      if parsed.None? || parsed.value + 1 == 0 then FirstNumber else parsed.value + 1
  }

  /** `` `INV-${year}-${String(n).padStart(6, "0")}` ``. */
  function InvoiceNumber(year: int, n: int): (r: string)
    ensures var p := YearPrefix(year) + "-";
      |r| >= |p| + 6 && r[..|p|] == p && r[|p|..] == PadStart(IntToString(n), 6, '0')
  {
    YearPrefix(year) + "-" + PadStart(IntToString(n), 6, '0')
  }

  /** `` `INV-${year}` ``. */
  function YearPrefix(year: int): string {
    "INV-" + IntToString(year)
  }

  /** A natural number zero-padded to six places is still its decimal
      digits. */
  lemma PaddedDigits(n: nat)
    ensures var padded := PadStart(NatToString(n), 6, '0');
      padded != [] && AllDigits(padded) && DigitsValue(padded) == n
  {
    var digits := NatToString(n);
    var padded := PadStart(digits, 6, '0');
    var zeros := padded[..|padded| - |digits|];
    assert padded == zeros + digits;
    LeadingZeros(zeros, digits);
  }

  /** `number` ends in `digits`, left-padded with '0' to six places and
      preceded by a '-'. */
  predicate EndsPadded(number: string, digits: string) {
    var width := if |digits| >= 6 then |digits| else 6;
    && |number| > width
    && number[|number| - |digits|..] == digits
    && (forall k :: |number| - width <= k < |number| - |digits| ==> number[k] == '0')
    && number[|number| - width - 1] == '-'
  }

  lemma PaddedTail(head: string, digits: string)
    requires head != [] && head[|head| - 1] == '-'
    ensures EndsPadded(head + PadStart(digits, 6, '0'), digits)
  {
    var padded := PadStart(digits, 6, '0');
    var number := head + padded;
    assert number[|head|..] == padded;
    assert number[|number| - |digits|..] == padded[|padded| - |digits|..];
  }

  /** The sequence part of a number is the decimal of `n`, zero-padded to
      six digits and never cut short. */
  lemma InvoiceNumberShape(year: int, n: nat)
    ensures EndsPadded(InvoiceNumber(year, n), NatToString(n))
  {
    var head := YearPrefix(year) + "-";
    var digits := NatToString(n);
    assert head[|head| - 1] == '-';
    assert InvoiceNumber(year, n) == head + PadStart(digits, 6, '0');
    PaddedTail(head, digits);
  }

  /** A number whose last segment is a non-empty run of digits continues
      from the value of those digits. */
  lemma NextNumAfterDigits(head: string, digits: string)
    requires digits != [] && AllDigits(digits)
    ensures NextNum(Some(head + "-" + digits)) == DigitsValue(digits) + 1
  {
    assert '-' !in digits by {
      assert forall k :: 0 <= k < |digits| ==> IsDigit(digits[k]);
    }
    LastSegmentOf(head, digits);
    ParseIntOfDigits(digits);
  }

  /** Numbering continues from the previous number: reading back a number
      made for `n` gives `n + 1`. */
  lemma NextNumRoundTrip(year: int, n: nat)
    ensures NextNum(Some(InvoiceNumber(year, n))) == n + 1
  {
    var padded := PadStart(NatToString(n), 6, '0');
    PaddedDigits(n);
    NextNumAfterDigits(YearPrefix(year), padded);
  }

  /** Without a previous number, numbering starts at 245. */
  lemma NextNumWithoutPrevious()
    ensures NextNum(None) == 245
  {
  }

  /** Text that does not start with a digit, a space or a sign is not a
      number. */
  lemma NotANumber(junk: string)
    requires junk != [] && !IsDigit(junk[0]) && !IsSpace(junk[0]) && junk[0] != '+' && junk[0] != '-'
    ensures ParseInt(junk) == None
  {
    assert SkipSpaces(junk, 0) == 0;
    assert junk[0..] == junk;
    assert TrimStart(junk) == junk;
    assert SkipSign(junk) == junk;
    assert DigitPrefix(junk) == [];
  }

  /** When the last segment of the previous number is not a number,
      numbering starts over at 245. */
  lemma NextNumAfterJunk(head: string, junk: string)
    requires '-' !in junk && junk != [] && !IsDigit(junk[0]) && !IsSpace(junk[0]) && junk[0] != '+'
    ensures NextNum(Some(head + "-" + junk)) == 245
  {
    LastSegmentOf(head, junk);
    NotANumber(junk);
  }

  /** A previous number ending in '-' has an empty last segment, which
      reads as 0, so the next number is 1. */
  lemma NextNumAfterDash(head: string)
    ensures NextNum(Some(head + "-")) == 1
  {
    LastSegmentOf(head, []);
    assert head + "-" + [] == head + "-";
    ParseIntOfDigits("0");
  }

  // ---------------------------------------------------------------------
  // the new draft

  /** One element of `body.items`, with the fields the route reads. */
  datatype ItemInput = ItemInput(description: Value, quantity: real, rate: real, tax: real)

  datatype Item = Item(description: Value, quantity: int, rate: string, tax: int)

  /** The request body; `items` is `None` when `body.items` is not an
      array, and the amounts are `None` when absent. */
  datatype DraftBody = DraftBody(
    currency: Value,
    client: Value,
    subtotal: Option<real>,
    tax: Option<real>,
    total: Option<real>,
    items: Option<seq<ItemInput>>,
    clientMeta: Value)

  datatype Invoice = Invoice(
    userId: nat,
    number: string,
    client: Value,
    currency: string,
    subtotal: string,
    tax: string,
    total: string,
    status: string,
    clientMeta: Value,
    items: seq<Item>)

  /** The signed-in user, with the currency the session carries. */
  datatype DraftSession = DraftSession(userId: nat, currency: Value)

  /** Each item with its quantity and tax rounded and its rate written with
      two decimals. */
  function Items(body: DraftBody): (r: seq<Item>)
    ensures body.items.None? ==> r == []
    ensures body.items.Some? ==> |r| == |body.items.value| && forall k :: 0 <= k < |r| ==>
      && r[k].description == body.items.value[k].description
      && r[k].quantity == Round(body.items.value[k].quantity)
      && r[k].rate == Fixed2(body.items.value[k].rate)
      && r[k].tax == Round(body.items.value[k].tax)
  {
    match body.items
    case None => []
    case Some(xs) => seq(|xs|, k requires 0 <= k < |xs| => ItemOf(xs[k]))
  }

  /** `{ description, quantity: Math.round(quantity || 0), rate: toDec(rate || 0), tax: Math.round(tax || 0) }`. */
  function ItemOf(it: ItemInput): Item {
    Item(it.description, Round(it.quantity), Fixed2(it.rate), Round(it.tax))
  }

  /** Invoice `k` is the user's, and no later invoice is. */
  predicate IsLatest(invoices: seq<Invoice>, userId: nat, k: int) {
    && 0 <= k < |invoices|
    && invoices[k].userId == userId
    && forall j :: k < j < |invoices| ==> invoices[j].userId != userId
  }

  /** The number of the user's latest invoice. */
  function LastNumberFor(invoices: seq<Invoice>, userId: nat): (r: Option<string>)
    ensures r.Some? ==> exists k :: IsLatest(invoices, userId, k) && invoices[k].number == r.value
    ensures r.None? ==> forall k :: 0 <= k < |invoices| ==> invoices[k].userId != userId
  {
    if invoices == [] then None
    else if invoices[|invoices| - 1].userId == userId then Some(invoices[|invoices| - 1].number)
    else LastNumberFor(invoices[..|invoices| - 1], userId)
  }

  /** The invoice the route creates. */
  function NewDraft(invoices: seq<Invoice>, session: DraftSession, body: DraftBody, year: int): (r: Invoice)
    ensures r.userId == session.userId && r.status == "Draft"
    ensures r.number == InvoiceNumber(year, NextNum(LastNumberFor(invoices, session.userId)))
    ensures Allowed(r.currency) && r.currency == DraftCurrency(body.currency, session.currency)
    ensures r.items == Items(body)
    ensures r.client == if Truthy(body.client) then body.client else Str("New Client")
  {
    var subtotal := body.subtotal.GetOr(0.0);
    var tax := body.tax.GetOr(0.0);
    var meta := if Truthy(body.clientMeta) && (body.clientMeta.Obj? || body.clientMeta.Arr?) then body.clientMeta else Undefined;
    Invoice(session.userId,
      InvoiceNumber(year, NextNum(LastNumberFor(invoices, session.userId))),
      Or(body.client, Str("New Client")),
      DraftCurrency(body.currency, session.currency),
      Fixed2(subtotal), Fixed2(tax), Fixed2(body.total.GetOr(subtotal + tax)),
      "Draft", meta, Items(body))
  }

  /** Two drafts in a row for the same user in the same year get
      consecutive numbers. */
  lemma ConsecutiveDrafts(invoices: seq<Invoice>, session: DraftSession, b1: DraftBody, b2: DraftBody, year: int)
    ensures var first := NewDraft(invoices, session, b1, year);
      var second := NewDraft(invoices + [first], session, b2, year);
      second.number == InvoiceNumber(year, NextNum(LastNumberFor(invoices, session.userId)) + 1)
  {
    var first := NewDraft(invoices, session, b1, year);
    var n := NextNum(LastNumberFor(invoices, session.userId));
    LastNumberAppended(invoices, first, session.userId);
    NextNumRoundTrip(year, n);
  }

  /** The latest invoice of a user is the one just appended for them. */
  lemma LastNumberAppended(invoices: seq<Invoice>, x: Invoice, userId: nat)
    requires x.userId == userId
    ensures LastNumberFor(invoices + [x], userId) == Some(x.number)
  {
  }

  datatype DraftResponse = DraftUnauthorized | Created(invoice: Invoice)

  class DraftStore {
    var invoices: seq<Invoice>

    constructor (initial: seq<Invoice>)
      ensures invoices == initial
    {
      invoices := initial;
    }

    /** The `POST` handler: a signed-in user gets one new draft. */
    method Post(session: Option<DraftSession>, body: DraftBody, year: int) returns (response: DraftResponse)
      modifies this
      ensures session.None? ==> response == DraftUnauthorized && invoices == old(invoices)
      ensures session.Some? ==> var draft := NewDraft(old(invoices), session.value, body, year);
        response == Created(draft) && invoices == old(invoices) + [draft]
    {
      if session.None? {
        return DraftUnauthorized;
      }
      var last := LastNumberFor(invoices, session.value.userId);
      var nextNum := NextNum(last);
      var number := InvoiceNumber(year, nextNum);
      var draft := NewDraft(invoices, session.value, body, year);
      assert draft.number == number;
      invoices := invoices + [draft];
      response := Created(draft);
    }
  }
}

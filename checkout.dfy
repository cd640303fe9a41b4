/** The checkout page: the formatters that the card, expiry and CVV inputs
    run on every keystroke, the patterns the form validates them against,
    and the submit handler, which sends the sale and then polls the status
    route for a 3-D Secure redirect. The sale route's and the status route's
    replies are parameters; the two-second sleeps are left out. */
module Checkout {
  import opened Common
  import opened Js

  // ---------------------------------------------------------------------
  // card number

  /** `d.replace(/(\d{4})(?=\d)/g, "$1 ")` on a string of digits: a space
      after every complete group of four that another digit follows. */
  function Grouped(d: string): string
    decreases |d|
  {
    if |d| > 4 then d[..4] + " " + Grouped(d[4..]) else d
  }

  /** `handleCardNumberFormat`. */
  function FormatCardNumber(value: string): (r: string)
    ensures |r| <= 19
    ensures forall k :: 0 <= k < |r| ==> (r[k] == ' ' <==> k % 5 == 4)
  {
    var d := Take(DigitsOnly(value), 16);
    GroupedTrimmed(d);
    GroupedDigits(d);
    Trim(Grouped(d))
  }

  lemma FifthPlaces(k: int)
    requires k >= 0
    ensures k < 5 ==> k % 5 == k && k / 5 == 0
    ensures k >= 5 ==> (k - 5) % 5 == k % 5 && (k - 5) / 5 == k / 5 - 1
  {
  }

  /** The grouped text of a digit string: digits and spaces, a space exactly
      at every fifth place, and the digits in order. */
  lemma {:induction false} GroupedDigits(d: string)
    requires AllDigits(d)
    ensures |Grouped(d)| == if d == [] then 0 else |d| + (|d| - 1) / 4
    ensures forall k :: 0 <= k < |Grouped(d)| ==> (Grouped(d)[k] == ' ' <==> k % 5 == 4)
    ensures forall k :: 0 <= k < |Grouped(d)| && k % 5 != 4 ==> Grouped(d)[k] == d[k - k / 5]
    decreases |d|
  {
    var g := Grouped(d);
    if |d| > 4 {
      var rest := d[4..];
      GroupedDigits(rest);
      var h := Grouped(rest);
      assert g == d[..4] + " " + h;
      assert |g| == |d| + (|d| - 1) / 4 by {
        assert (|rest| - 1) / 4 + 1 == (|d| - 1) / 4;
      }
      forall k | 0 <= k < |g|
        ensures g[k] == ' ' <==> k % 5 == 4
        ensures k % 5 != 4 ==> g[k] == d[k - k / 5]
      {
        FifthPlaces(k);
        if k >= 5 {
          assert g[k] == h[k - 5];
        }
      }
    } else {
      forall k | 0 <= k < |g|
        ensures g[k] == ' ' <==> k % 5 == 4
        ensures k % 5 != 4 ==> g[k] == d[k - k / 5]
      {
        FifthPlaces(k);
      }
    }
  }

  /** Removing the spaces from the grouped text, or keeping its digits,
      gives the digits back. */
  lemma {:induction false} UngroupDigits(d: string)
    requires AllDigits(d)
    ensures Remove(Grouped(d), ' ') == d
    ensures DigitsOnly(Grouped(d)) == d
    decreases |d|
  {
    if |d| > 4 {
      var rest := d[4..];
      var head := d[..4];
      UngroupDigits(rest);
      assert AllDigits(head) && ' ' !in head by {
        assert forall k :: 0 <= k < 4 ==> head[k] == d[k];
      }
      assert Grouped(d) == head + [' '] + Grouped(rest);
      RemoveAfter(head, Grouped(rest), ' ');
      DigitsThenSpace(head, Grouped(rest));
      assert head + rest == d;
    } else {
      assert ' ' !in d by {
        assert forall k :: 0 <= k < |d| ==> IsDigit(d[k]);
      }
      RemoveAbsent(d, ' ');
      DigitsOnlyOfDigits(d);
    }
  }

  /** The `trim()` at the end changes nothing: grouped digits never start or
      end with a space. */
  lemma GroupedTrimmed(d: string)
    requires AllDigits(d)
    ensures Trim(Grouped(d)) == Grouped(d)
  {
    GroupedDigits(d);
    var g := Grouped(d);
    if g != [] {
      assert (|g| - 1) % 5 != 4 by {
        assert |g| - 1 == |d| - 1 + (|d| - 1) / 4;
      }
      assert g[0] == d[0];
      assert g[|g| - 1] == d[|g| - 1 - (|g| - 1) / 5];
    }
    TrimNoop(g);
  }

  /** The formatted card number holds the first sixteen digits typed, in
      order, with a space exactly at every fifth place and nothing else. */
  lemma CardNumberDigits(value: string)
    ensures var d := Take(DigitsOnly(value), 16); var r := FormatCardNumber(value);
      && r == Grouped(d)
      && Remove(r, ' ') == d
      && |r| == (if d == [] then 0 else |d| + (|d| - 1) / 4)
      && (forall k :: 0 <= k < |r| ==> (r[k] == ' ' <==> k % 5 == 4))
      && (forall k :: 0 <= k < |r| && k % 5 != 4 ==> r[k] == d[k - k / 5])
  {
    var d := Take(DigitsOnly(value), 16);
    GroupedTrimmed(d);
    GroupedDigits(d);
    UngroupDigits(d);
  }

  /** Formatting a formatted card number changes nothing. */
  lemma CardNumberIdempotent(value: string)
    ensures FormatCardNumber(FormatCardNumber(value)) == FormatCardNumber(value)
  {
    var d := Take(DigitsOnly(value), 16);
    CardNumberDigits(value);
    UngroupDigits(d);
    assert DigitsOnly(FormatCardNumber(value)) == d;
    assert Take(d, 16) == d;
  }

  /** `/^\d{4}\s\d{4}\s\d{4}\s\d{4}$/`. */
  predicate CardPattern(s: string) {
    && |s| == 19
    && AllDigits(s[0..4]) && IsSpace(s[4])
    && AllDigits(s[5..9]) && IsSpace(s[9])
    && AllDigits(s[10..14]) && IsSpace(s[14])
    && AllDigits(s[15..19])
  }

  lemma GroupOfDigits(r: string, o: nat)
    requires o + 4 <= |r|
    requires forall k :: o <= k < o + 4 ==> IsDigit(r[k])
    ensures AllDigits(r[o..o + 4])
  {
    var g := r[o..o + 4];
    assert forall i :: 0 <= i < 4 ==> g[i] == r[o + i];
  }

  /** Nineteen characters with spaces at every fifth place and digits
      elsewhere match the pattern. */
  lemma GroupsMatchPattern(r: string)
    requires |r| == 19
    requires forall k :: 0 <= k < 19 && k % 5 == 4 ==> r[k] == ' '
    requires forall k :: 0 <= k < 19 && k % 5 != 4 ==> IsDigit(r[k])
    ensures CardPattern(r)
  {
    assert r[4] == ' ' && r[9] == ' ' && r[14] == ' ';
    GroupOfDigits(r, 0);
    GroupOfDigits(r, 5);
    GroupOfDigits(r, 10);
    GroupOfDigits(r, 15);
  }

  /** The formatted card number passes the validator exactly when sixteen
      or more digits were typed. */
  lemma CardNumberValid(value: string)
    ensures CardPattern(FormatCardNumber(value)) <==> |DigitsOnly(value)| >= 16
  {
    var d := Take(DigitsOnly(value), 16);
    var r := FormatCardNumber(value);
    CardNumberDigits(value);
    if |DigitsOnly(value)| >= 16 {
      assert |d| == 16 && |r| == 19;
      forall k | 0 <= k < 19 && k % 5 != 4
        ensures IsDigit(r[k])
      {
        assert r[k] == d[k - k / 5];
      }
      GroupsMatchPattern(r);
    } else {
      assert |d| < 16;
      assert |r| < 19;
    }
  }

  // ---------------------------------------------------------------------
  // expiry

  /** `handleExpiryFormat`: at most four digits, with a '/' after the second
      once there is a third. */
  function FormatExpiry(value: string): (r: string)
    ensures var v := Take(DigitsOnly(value), 4);
      && |r| == (if |v| >= 3 then |v| + 1 else |v|) && |r| <= 5
      && ('/' in r <==> |v| >= 3)
      && (|v| >= 3 ==> r[2] == '/' && r[..2] == v[..2] && r[3..] == v[2..])
      && (|v| < 3 ==> r == v)
  {
    var v := Take(DigitsOnly(value), 4);
    assert '/' !in v by {
      assert forall k :: 0 <= k < |v| ==> IsDigit(v[k]);
    }
    if |v| >= 3 then v[..2] + "/" + v[2..] else v
  }

  /** Removing the '/' gives back the digits kept. */
  lemma ExpiryDigits(value: string)
    ensures Remove(FormatExpiry(value), '/') == Take(DigitsOnly(value), 4)
  {
    var v := Take(DigitsOnly(value), 4);
    assert '/' !in v by {
      assert forall k :: 0 <= k < |v| ==> IsDigit(v[k]);
    }
    RemoveAbsent(v, '/');
    if |v| >= 3 {
      assert '/' !in v[..2] && '/' !in v[2..];
      RemoveAppend(v[..2] + "/", v[2..], '/');
      RemoveAppend(v[..2], "/", '/');
      RemoveAbsent(v[..2], '/');
      RemoveAbsent(v[2..], '/');
      assert v[..2] + v[2..] == v;
    }
  }

  /** `/^(0[1-9]|1[0-2])\/\d{2}$/`. */
  predicate ExpiryPattern(s: string) {
    && |s| == 5
    && ((s[0] == '0' && '1' <= s[1] <= '9') || (s[0] == '1' && '0' <= s[1] <= '2'))
    && s[2] == '/'
    && IsDigit(s[3]) && IsDigit(s[4])
  }

  /** The pattern accepts exactly `MM/YY` with a month from 01 to 12. */
  lemma ExpiryMonth(s: string)
    ensures ExpiryPattern(s) <==>
      && |s| == 5 && s[2] == '/' && AllDigits(s[..2]) && AllDigits(s[3..])
      && 1 <= DigitsValue(s[..2]) <= 12
  {
    if |s| == 5 && AllDigits(s[..2]) {
      var mm := s[..2];
      assert mm[..|mm| - 1] == [s[0]];
      assert DigitsValue([s[0]]) == DigitValue(s[0]) by {
        assert [s[0]][..0] == [];
      }
      assert DigitsValue(mm) == DigitValue(s[0]) * 10 + DigitValue(s[1]);
    }
  }

  /** The formatted expiry passes the validator exactly when four digits
      were typed whose first two are a month. */
  lemma ExpiryValid(value: string)
    ensures var v := Take(DigitsOnly(value), 4);
      ExpiryPattern(FormatExpiry(value)) <==> |v| == 4 && 1 <= DigitsValue(v[..2]) <= 12
  {
    var v := Take(DigitsOnly(value), 4);
    var r := FormatExpiry(value);
    ExpiryMonth(r);
    if |v| == 4 {
      assert r[..2] == v[..2];
    }
  }

  // ---------------------------------------------------------------------
  // CVV

  /** `e.target.value.replace(/\D/g, "").slice(0, 3)`. */
  function FilterCvv(value: string): (r: string)
    ensures |r| <= 3 && AllDigits(r)
  {
    Take(DigitsOnly(value), 3)
  }

  /** `/^\d{3}$/`. */
  predicate CvvPattern(s: string) {
    |s| == 3 && AllDigits(s)
  }

  /** The filtered CVV passes the validator exactly when three or more
      digits were typed. */
  lemma CvvValid(value: string)
    ensures CvvPattern(FilterCvv(value)) <==> |DigitsOnly(value)| >= 3
  {
  }

  // ---------------------------------------------------------------------
  // the form

  datatype CardForm = CardForm(
    cardNumber: string,
    expiry: string,
    cvv: string,
    name: string,
    address: string,
    city: string,
    postalCode: string,
    acceptedTerms: bool)

  /** The Yup schema: the three patterns, the four required texts and the
      accepted terms. */
  predicate FormValid(f: CardForm) {
    && CardPattern(f.cardNumber) && ExpiryPattern(f.expiry) && CvvPattern(f.cvv)
    && f.name != [] && f.address != [] && f.city != [] && f.postalCode != []
    && f.acceptedTerms
  }

  // ---------------------------------------------------------------------
  // submitting

  /** What `fetch("/api/cardserv/sale")` and `res.json()` gave: a thrown
      error, or the reply's `ok` flag and body. */
  datatype SaleReply = SaleThrew(message: string) | SaleAnswered(ok: bool, body: Value)

  /** One status poll: a thrown error, or the parsed body. */
  datatype PollReply = PollThrew(message: string) | PollAnswered(body: Value)

  datatype Outcome =
    | TermsRefused            // the terms toast, nothing sent
    | Failed(message: Value)  // the error toast
    | Crashed                 // `sale.data.orderMerchantId` read through a missing `data`
    | Navigated(url: Value)   // `window.location.href = …`
    | Succeeded               // the success toast and the move to /my-orders

  /** Whether the sale was sent, how many status requests were sent, and
      how the handler ended. */
  datatype Submission = Submission(saleSent: bool, polls: nat, outcome: Outcome)

  /** `sale?.data?.redirectUrl || sale?.redirectUrl || sale?.raw?.status?.redirectUrl`. */
  function ImmediateRedirect(sale: Value): Value {
    Or(Or(Get(Get(sale, "data"), "redirectUrl"), Get(sale, "redirectUrl")),
       Get(Get(Get(sale, "raw"), "status"), "redirectUrl"))
  }

  /** `status?.data?.redirectUrl || status?.redirectUrl || status?.raw?.redirectUrl`. */
  function PolledRedirect(status: Value): Value {
    Or(Or(Get(Get(status, "data"), "redirectUrl"), Get(status, "redirectUrl")),
       Get(Get(status, "raw"), "redirectUrl"))
  }

  /** How the polling loop ended: its last redirect value, or a thrown
      error; `requests` counts the status requests sent. */
  datatype PollResult = PollDone(redirect: Value, requests: nat) | PollFailed(message: string, requests: nat)

  /** The polling loop from attempt `attempts` with `redirect` in hand. */
  function PollLoop(poll: nat -> PollReply, attempts: nat, redirect: Value): (r: PollResult)
    requires attempts <= 6
    ensures attempts <= r.requests <= 6
    ensures r.PollDone? && r.requests < 6 ==> Truthy(r.redirect)
    decreases 6 - attempts
  {
    if Truthy(redirect) || attempts >= 6 then PollDone(redirect, attempts)
    else match poll(attempts)
      case PollThrew(m) => PollFailed(m, attempts + 1)
      case PollAnswered(b) => PollLoop(poll, attempts + 1, PolledRedirect(b))
  }

  /** The catch block's message, `err.message || "Payment failed"`. */
  function CaughtMessage(m: string): Value {
    Or(Str(m), Str("Payment failed"))
  }

  /** `handleSubmit` as written. */
  function Submit(form: CardForm, sale: SaleReply, poll: nat -> PollReply): (r: Submission)
    ensures r.saleSent <==> form.acceptedTerms
    ensures r.polls <= 6
    ensures r.polls > 0 ==> sale.SaleAnswered? && sale.ok && !Truthy(ImmediateRedirect(sale.body))
  {
    if !form.acceptedTerms then Submission(false, 0, TermsRefused)
    else match sale
      case SaleThrew(m) => Submission(true, 0, Failed(CaughtMessage(m)))
      case SaleAnswered(ok, body) =>
        if !ok then Submission(true, 0, Failed(Or(Get(body, "error"), Str("Payment creation failed"))))
        else if Truthy(ImmediateRedirect(body)) then Submission(true, 0, Navigated(ImmediateRedirect(body)))
        else if Nullish(Get(body, "data")) then Submission(true, 0, Crashed)
        else match PollLoop(poll, 0, Null)
          case PollFailed(m, n) => Submission(true, n, Failed(CaughtMessage(m)))
          case PollDone(_, n) =>
            if Truthy(Get(body, "redirectUrl")) then Submission(true, n, Navigated(Get(body, "redirectUrl")))
            else Submission(true, n, Succeeded)
  }

  /** The submit handler, step by step. */
  method HandleSubmit(form: CardForm, sale: SaleReply, poll: nat -> PollReply) returns (r: Submission)
    ensures r == Submit(form, sale, poll)
  {
    if !form.acceptedTerms {
      return Submission(false, 0, TermsRefused);
    }
    if sale.SaleThrew? {
      return Submission(true, 0, Failed(CaughtMessage(sale.message)));
    }
    var body := sale.body;
    if !sale.ok {
      return Submission(true, 0, Failed(Or(Get(body, "error"), Str("Payment creation failed"))));
    }
    var immediateRedirect := ImmediateRedirect(body);
    if Truthy(immediateRedirect) {
      return Submission(true, 0, Navigated(immediateRedirect));
    }
    var redirectUrl := Null;
    var attempts := 0;
    while !Truthy(redirectUrl) && attempts < 6
      invariant 0 <= attempts <= 6
      invariant PollLoop(poll, attempts, redirectUrl) == PollLoop(poll, 0, Null)
      invariant attempts > 0 ==> !Nullish(Get(body, "data"))
    {
      if Nullish(Get(body, "data")) {
        return Submission(true, 0, Crashed);
      }
      var status := poll(attempts);
      if status.PollThrew? {
        return Submission(true, attempts + 1, Failed(CaughtMessage(status.message)));
      }
      redirectUrl := PolledRedirect(status.body);
      attempts := attempts + 1;
    }
    if Truthy(Get(body, "redirectUrl")) {
      return Submission(true, attempts, Navigated(Get(body, "redirectUrl")));
    }
    r := Submission(true, attempts, Succeeded);
  }

  /** Nothing is sent unless the terms are accepted, and the terms toast
      appears exactly then. */
  lemma TermsGate(form: CardForm, sale: SaleReply, poll: nat -> PollReply)
    ensures Submit(form, sale, poll).outcome == TermsRefused <==> !form.acceptedTerms
    ensures !form.acceptedTerms ==> !Submit(form, sale, poll).saleSent && Submit(form, sale, poll).polls == 0
    ensures form.acceptedTerms ==> Submit(form, sale, poll).saleSent
  {
  }

  /** A form that passes validation is always sent. */
  lemma ValidFormIsSent(form: CardForm, sale: SaleReply, poll: nat -> PollReply)
    requires FormValid(form)
    ensures Submit(form, sale, poll).saleSent && Submit(form, sale, poll).outcome != TermsRefused
  {
  }

  /** The immediate redirect is the first truthy of the three places, and
      when there is one the page goes there without polling. */
  lemma ImmediateRedirectFirst(form: CardForm, body: Value, poll: nat -> PollReply)
    requires form.acceptedTerms
    ensures Truthy(ImmediateRedirect(body)) <==>
      Truthy(Get(Get(body, "data"), "redirectUrl")) || Truthy(Get(body, "redirectUrl"))
      || Truthy(Get(Get(Get(body, "raw"), "status"), "redirectUrl"))
    ensures Truthy(ImmediateRedirect(body)) ==>
      Submit(form, SaleAnswered(true, body), poll) == Submission(true, 0, Navigated(ImmediateRedirect(body)))
  {
    OrChain(Get(Get(body, "data"), "redirectUrl"), Get(body, "redirectUrl"),
            Get(Get(Get(body, "raw"), "status"), "redirectUrl"));
  }

  /** Status requests `a` to `b - 1` were all answered without a redirect. */
  predicate QuietPolls(poll: nat -> PollReply, a: nat, b: int) {
    forall j: nat :: a <= j < b ==> poll(j).PollAnswered? && !Truthy(PolledRedirect(poll(j).body))
  }

  lemma QuietPollsBefore(poll: nat -> PollReply, a: nat, b: int)
    requires poll(a).PollAnswered? && !Truthy(PolledRedirect(poll(a).body))
    requires QuietPolls(poll, a + 1, b)
    ensures QuietPolls(poll, a, b)
  {
  }

  /** From attempt `a`, the loop sends at most `6 - a` requests, and it
      stops early only on a redirect or a thrown error. */
  lemma {:induction false} PollLoopStops(poll: nat -> PollReply, a: nat, redirect: Value)
    requires a <= 6
    ensures var r := PollLoop(poll, a, redirect);
      && a <= r.requests <= 6
      && (Truthy(redirect) || a == 6 ==> r == PollDone(redirect, a))
      && (r.PollFailed? ==> a < r.requests && poll(r.requests - 1) == PollThrew(r.message))
      && (r.PollDone? && r.requests < 6 ==> Truthy(r.redirect))
      && (r.PollDone? && r.requests == a ==> r.redirect == redirect)
      && (r.PollDone? && r.requests > a ==>
            poll(r.requests - 1).PollAnswered? && r.redirect == PolledRedirect(poll(r.requests - 1).body))
    decreases 6 - a
  {
    if !Truthy(redirect) && a < 6 && poll(a).PollAnswered? {
      var next := PolledRedirect(poll(a).body);
      PollLoopStops(poll, a + 1, next);
      assert PollLoop(poll, a, redirect) == PollLoop(poll, a + 1, next);
    }
  }

  /** Every request before the last one was answered without a redirect. */
  lemma {:induction false} PollLoopQuiet(poll: nat -> PollReply, a: nat, redirect: Value)
    requires a <= 6
    ensures var r := PollLoop(poll, a, redirect);
      QuietPolls(poll, a, r.requests - 1)
    decreases 6 - a
  {
    var r := PollLoop(poll, a, redirect);
    if !Truthy(redirect) && a < 6 && poll(a).PollAnswered? {
      var next := PolledRedirect(poll(a).body);
      PollLoopQuiet(poll, a + 1, next);
      assert r == PollLoop(poll, a + 1, next);
      if r.requests - 1 > a {
        assert !Truthy(next);
        QuietPollsBefore(poll, a, r.requests - 1);
      }
    }
  }

  /** At most six status requests are sent, and polling stops at the first
      reply that carries a redirect. */
  lemma PollingBounded(form: CardForm, sale: SaleReply, poll: nat -> PollReply)
    ensures Submit(form, sale, poll).polls <= 6
    ensures var r := PollLoop(poll, 0, Null);
      && 1 <= r.requests <= 6
      && QuietPolls(poll, 0, r.requests - 1)
      && (r.PollDone? ==> poll(r.requests - 1).PollAnswered? && r.redirect == PolledRedirect(poll(r.requests - 1).body))
      && (r.PollDone? && r.requests < 6 ==> Truthy(r.redirect))
  {
    PollLoopStops(poll, 0, Null);
    PollLoopQuiet(poll, 0, Null);
  }

  /** After polling, the page never navigates: line 128 reads
      `sale.redirectUrl`, which is falsy whenever polling started, so a
      redirect the status route supplies is dropped and the success screen
      is shown instead. */
  lemma PolledRedirectIgnored(form: CardForm, sale: SaleReply, poll: nat -> PollReply)
    requires Submit(form, sale, poll).polls > 0
    ensures !Submit(form, sale, poll).outcome.Navigated?
  {
    if sale.SaleAnswered? {
      ImmediateRedirectFirst(form, sale.body, poll);
    }
  }

  /** A concrete case: the first poll supplies a redirect and the page
      shows success. */
  lemma PolledRedirectIgnoredExample(form: CardForm, orderId: Value, url: string)
    requires form.acceptedTerms && url != []
    ensures var body := Obj(map["data" := Obj(map["orderMerchantId" := orderId])]);
      var poll := (j: nat) => PollAnswered(Obj(map["data" := Obj(map["redirectUrl" := Str(url)])]));
      Submit(form, SaleAnswered(true, body), poll) == Submission(true, 1, Succeeded)
  {
    var body := Obj(map["data" := Obj(map["orderMerchantId" := orderId])]);
    var poll := (j: nat) => PollAnswered(Obj(map["data" := Obj(map["redirectUrl" := Str(url)])]));
    assert Get(Get(body, "data"), "redirectUrl") == Undefined;
    assert PolledRedirect(poll(0).body) == Str(url);
    assert PollLoop(poll, 1, Str(url)) == PollDone(Str(url), 1);
  }

  /** The handler as evidently intended: a redirect found by polling is
      followed. */
  function SubmitIntended(form: CardForm, sale: SaleReply, poll: nat -> PollReply): Submission {
    var r := Submit(form, sale, poll);
    var polled := PollLoop(poll, 0, Null);
    if r.outcome == Succeeded && polled.PollDone? && Truthy(polled.redirect)
    then Submission(true, r.polls, Navigated(polled.redirect))
    else r
  }

  /** The intended handler goes to the first redirect polling finds. */
  lemma IntendedFollowsPolledRedirect(form: CardForm, body: Value, poll: nat -> PollReply)
    requires form.acceptedTerms && !Truthy(ImmediateRedirect(body)) && !Nullish(Get(body, "data"))
    ensures match PollLoop(poll, 0, Null)
      case PollDone(u, n) =>
        SubmitIntended(form, SaleAnswered(true, body), poll)
          == Submission(true, n, if Truthy(u) then Navigated(u) else Succeeded)
      case PollFailed(m, n) =>
        SubmitIntended(form, SaleAnswered(true, body), poll) == Submission(true, n, Failed(CaughtMessage(m)))
  {
    ImmediateRedirectFirst(form, body, poll);
  }
}

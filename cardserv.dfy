/** `createCardServOrder`: the body of a sale request built from the
    checkout payload and the gateway configuration, and the normalisation
    of the gateway's reply. The HTTP round trip is a parameter: the caller
    supplies the reply (`ok`, status, raw text and, when the text is JSON,
    its parsed value). */
module CardServ {
  import opened Common
  import opened Js
  import opened Currencies

  /** The `CARDSERV_*` and `NEXT_PUBLIC_APP_URL` environment variables;
      `None` is an unset variable. */
  datatype Config = Config(
    baseUrl: Option<string>,
    requestorId: Option<string>,
    merchantId: Option<string>,
    bearerToken: Option<string>,
    currency: Option<string>,
    appUrl: Option<string>)

  const TestHost: string := "https://test.cardserv.io"

  /** A variable interpolated into a template literal: unset reads as
      `"undefined"`. */
  function EnvText(v: Option<string>): (r: string)
    ensures v.Some? ==> r == v.value
    ensures v.None? ==> r == "undefined"
  {
    if v.Some? then v.value else "undefined"
  }

  /** `s.replace(/\/+$/, "")`: the trailing run of slashes removed. */
  function StripTrailingSlashes(s: string): (r: string)
    ensures |r| <= |s| && r == s[..|r|]
    ensures r == [] || r[|r| - 1] != '/'
    ensures forall k :: |r| <= k < |s| ==> s[k] == '/'
  {
    if s != [] && s[|s| - 1] == '/' then StripTrailingSlashes(s[..|s| - 1]) else s
  }

  /** `CARDSERV_BASE_URL?.replace(/\/+$/, "") || "https://test.cardserv.io"`. */
  function BaseUrl(cfg: Config): (r: string)
    ensures r != [] && r[|r| - 1] != '/'
  {
    if cfg.baseUrl.Some? && StripTrailingSlashes(cfg.baseUrl.value) != [] then
      StripTrailingSlashes(cfg.baseUrl.value)
    else
      TestHost
  }

  function SaleUrl(cfg: Config): (r: string)
    ensures var b := BaseUrl(cfg);
      |b| + 1 < |r| && r[..|b| + 1] == b + "/" && b[|b| - 1] != '/' && r[|b| + 1] != '/'
  {
    BaseUrl(cfg) + "/api/payments/sale/" + EnvText(cfg.requestorId)
  }

  function Authorization(cfg: Config): string {
    "Bearer " + EnvText(cfg.bearerToken)
  }

  /** `CARDSERV_CURRENCY || "EUR"`. */
  function CurrencyCode(cfg: Config): string {
    if cfg.currency.Some? && cfg.currency.value != [] then cfg.currency.value else "EUR"
  }

  // ---------------------------------------------------------------------
  // the request body

  /** `x.toFixed(2)` of a number below 10^21, over exact reals: the value
      rounded to cents, half up, with a sign when negative. */
  function Fixed2(x: real): (r: string)
    ensures |r| >= 4 && r[|r| - 3] == '.'
    ensures r[0] == '-' <==> x < 0.0
  {
    if x < 0.0 then "-" + Fixed2Abs(-x) else Fixed2Abs(x)
  }

  function Fixed2Abs(x: real): (r: string)
    requires x >= 0.0
    ensures |r| >= 4 && r[|r| - 3] == '.' && IsDigit(r[0])
  {
    var n := Round(x * 100.0);
    assert n >= 0;
    NatToString(n / 100) + "." + [DigitChar(n % 100 / 10), DigitChar(n % 10)]
  }

  /** `payload.amount?.toFixed(2) || "1.00"`: a missing amount gives
      `"1.00"`, a value that is not a number has no `toFixed` and throws. */
  function AmountText(amount: Value): (r: Result<string>)
    ensures r.Ok? <==> Nullish(amount) || amount.Num? || amount.NaN?
    ensures Nullish(amount) ==> r == Ok("1.00")
    ensures r.Ok? ==> r.value != []
  {
    match amount
    case Undefined => Ok("1.00")
    case Null => Ok("1.00")
    case Num(n) => Ok(Fixed2(n))
    case NaN => Ok("NaN")
    case _ => Failure("TypeError")
  }

  /** `v?.split(sep)[i]`: `Some` piece, `None` for `undefined` (no such
      piece, or `v` nullish); a value that is not a string has no `split`
      and throws. */
  function SplitPart(v: Value, sep: string, i: nat): (r: Result<Option<string>>)
    requires |sep| > 0
    ensures r.Ok? <==> Nullish(v) || v.Str?
    ensures r.Ok? && r.value.Some? ==> v.Str? && i < |Split(v.s, sep)| && r.value.value == Split(v.s, sep)[i]
  {
    if Nullish(v) then Ok(None)
    else if v.Str? then
      var pieces := Split(v.s, sep);
      Ok(if i < |pieces| then Some(pieces[i]) else None)
    else Failure("TypeError")
  }

  /** `piece || fallback` for a piece that is a string or `undefined`. */
  function TextOr(piece: Option<string>, fallback: string): (r: string)
    ensures piece.Some? && piece.value != [] ==> r == piece.value
    ensures piece.None? || piece.value == [] ==> r == fallback
  {
    if piece.Some? && piece.value != [] then piece.value else fallback
  }

  /** `name?.split(" ")[0] || "John"` and `name?.split(" ")[1] || "Doe"`. */
  function NameParts(name: Value): (r: Result<(string, string)>)
    ensures r.Ok? <==> Nullish(name) || name.Str?
    ensures r.Ok? ==> r.value.0 != [] && r.value.1 != []
  {
    var first := SplitPart(name, " ", 0);
    var last := SplitPart(name, " ", 1);
    if first.Failure? || last.Failure? then Failure("TypeError")
    else Ok((TextOr(first.value, "John"), TextOr(last.value, "Doe")))
  }

  /** `expiry?.split("/")[0] || "10"` and `` `20${expiry?.split("/")[1] || "26"}` ``. */
  function ExpiryParts(expiry: Value): (r: Result<(string, string)>)
    ensures r.Ok? <==> Nullish(expiry) || expiry.Str?
    ensures r.Ok? ==> r.value.0 != [] && StartsWith(r.value.1, "20")
  {
    var month := SplitPart(expiry, "/", 0);
    var year := SplitPart(expiry, "/", 1);
    if month.Failure? || year.Failure? then Failure("TypeError")
    else Ok((TextOr(month.value, "10"), "20" + TextOr(year.value, "26")))
  }

  datatype OrderPart = OrderPart(merchantId: Option<string>, description: Value, amount: string, currencyCode: string)
  datatype Address = Address(countryCode: string, zipCode: Value, city: Value, line1: Value)
  datatype Customer = Customer(firstname: string, lastname: string, email: Value, address: Address)
  datatype CardPart = CardPart(cardNumber: Value, cvv2: Value, expireMonth: string, expireYear: string, printedName: Value)
  datatype Urls = Urls(resultUrl: string, webhookUrl: string)
  datatype SaleBody = SaleBody(order: OrderPart, customer: Customer, card: CardPart, urls: Urls)

  /** The request `createCardServOrder` sends. */
  datatype SaleRequest = SaleRequest(url: string, authorization: string, body: SaleBody)

  /** The payload fields whose shape can make building the body throw. */
  predicate BuildThrows(payload: Value) {
    var card := Get(payload, "card");
    Nullish(payload) || Nullish(card)
    || !(Nullish(Get(payload, "amount")) || Get(payload, "amount").Num? || Get(payload, "amount").NaN?)
    || !(Nullish(Get(card, "name")) || Get(card, "name").Str?)
    || !(Nullish(Get(card, "expiry")) || Get(card, "expiry").Str?)
  }

  /** The request built from the payload, the configuration and the clock
      reading `now` (`Date.now()`). */
  function BuildSale(payload: Value, cfg: Config, now: int): (r: Result<SaleRequest>)
    ensures r.Failure? <==> BuildThrows(payload)
    ensures r.Ok? ==> r.value.url == SaleUrl(cfg) && r.value.authorization == Authorization(cfg)
    ensures r.Ok? ==> r.value.body.order.merchantId == cfg.merchantId
    ensures r.Ok? ==> r.value.body.order.currencyCode == CurrencyCode(cfg)
    ensures r.Ok? ==> var names := NameParts(Get(Get(payload, "card"), "name")).value;
      r.value.body.customer.firstname == names.0 && r.value.body.customer.lastname == names.1
    ensures r.Ok? ==> var expiry := ExpiryParts(Get(Get(payload, "card"), "expiry")).value;
      r.value.body.card.expireMonth == expiry.0 && r.value.body.card.expireYear == expiry.1
  {
    if Nullish(payload) then Failure("TypeError")
    else
      var card := Get(payload, "card");
      if Nullish(card) then Failure("TypeError")
      else
        var amount := AmountText(Get(payload, "amount"));
        var names := NameParts(Get(card, "name"));
        var expiry := ExpiryParts(Get(card, "expiry"));
        if amount.Failure? || names.Failure? || expiry.Failure? then
          Failure("TypeError")
        else
          var order := OrderPart(
            cfg.merchantId,
            Or(Get(payload, "description"), Str("Sale #" + IntToString(now))),
            amount.value,
            CurrencyCode(cfg));
          var customer := Customer(
            names.value.0,
            names.value.1,
            Or(Get(payload, "email"), Str("test@example.com")),
            Address("GB",
              Or(Get(card, "postalCode"), Str("00000")),
              Or(Get(card, "city"), Str("London")),
              Or(Get(card, "address"), Str("123 Baker Street"))));
          var cardPart := CardPart(
            Or(Get(card, "cardNumber"), Str("4444444411111111")),
            Or(Get(card, "cvv"), Str("872")),
            expiry.value.0,
            expiry.value.1,
            Or(Get(card, "name"), Str("John Doe")));
          var urls := Urls(EnvText(cfg.appUrl) + "/success", EnvText(cfg.appUrl) + "/api/cardserv/webhook");
          Ok(SaleRequest(SaleUrl(cfg), Authorization(cfg), SaleBody(order, customer, cardPart, urls)))
  }

  // ---------------------------------------------------------------------
  // the reply

  /** What the gateway answered: `res.ok`, `res.status`, the body text and
      `JSON.parse` of it (`None` when it is not JSON). */
  datatype Reply = Reply(ok: bool, status: int, raw: string, parsed: Option<Value>)

  /** The parsed reply, or the stand-in for a body that is not JSON. */
  function ParsedBody(reply: Reply): Value {
    if reply.parsed.Some? then reply.parsed.value
    else Obj(map["orderState" := Str("PROCESSING"), "raw" := Str(reply.raw)])
  }

  /** `k` is one of the first `n` indices, written in decimal. */
  predicate IsIndexKey(k: string, n: nat) {
    exists i :: 0 <= i < n && k == NatToString(i)
  }

  /** The index keys `"0"`, `"1"`, ... with which a spread copies the
      elements of an array or the characters of a string. */
  function IndexFields(xs: seq<Value>): (r: map<string, Value>)
    ensures forall k :: k in r ==> IsIndexKey(k, |xs|)
    ensures forall i :: 0 <= i < |xs| ==> NatToString(i) in r && r[NatToString(i)] == xs[i]
  {
    if xs == [] then map[]
    else
      var n := |xs| - 1;
      var m := IndexFields(xs[..n])[NatToString(n) := xs[n]];
      assert forall i :: 0 <= i < n ==> NatToString(i) != NatToString(n) by {
        forall i | 0 <= i < n
          ensures NatToString(i) != NatToString(n)
        {
          assert DigitsValue(NatToString(i)) == i;
        }
      }
      forall k | k in m
        ensures IsIndexKey(k, |xs|)
      {
        if k != NatToString(n) {
          var i :| 0 <= i < n && k == NatToString(i);
          assert 0 <= i < |xs| && k == NatToString(i);
        } else {
          assert 0 <= n < |xs| && k == NatToString(n);
        }
      }
      m
  }

  /** The own enumerable properties an object spread copies: an object's
      fields, an array's elements and a string's characters under their
      indices, and nothing for the other values. */
  function SpreadFields(v: Value): map<string, Value> {
    match v
    case Obj(fields) => fields
    case Arr(elems) => IndexFields(elems)
    case Str(t) => IndexFields(seq(|t|, i requires 0 <= i < |t| => Str([t[i]])))
    case _ => map[]
  }

  predicate Reserved(k: string) {
    k == "ok" || k == "orderState" || k == "statusCode"
  }

  /** The object `createCardServOrder` returns for a reply. */
  function Normalize(reply: Reply): (r: Value)
    ensures r.Obj?
    ensures "ok" in r.fields && r.fields["ok"] == Bool(reply.ok)
    ensures "statusCode" in r.fields && r.fields["statusCode"] == Num(reply.status as real)
    ensures "orderState" in r.fields && Truthy(r.fields["orderState"])
    ensures forall k :: k in SpreadFields(ParsedBody(reply)) && !Reserved(k) ==>
      k in r.fields && r.fields[k] == SpreadFields(ParsedBody(reply))[k]
    ensures forall k :: k in r.fields ==> Reserved(k) || k in SpreadFields(ParsedBody(reply))
  {
    var parsed := ParsedBody(reply);
    var state := Or(Get(parsed, "orderState"), Str("PROCESSING"));
    Obj(SpreadFields(parsed)["ok" := Bool(reply.ok)]["orderState" := state]["statusCode" := Num(reply.status as real)])
  }

  /** A reply whose body is the JSON string `"ok"` comes back with its
      characters under the keys "0" and "1" beside the three fields the
      call sets; its `orderState` falls back to "PROCESSING". */
  lemma NormalizeStringBody(ok: bool, status: int)
    ensures Normalize(Reply(ok, status, "\"ok\"", Some(Str("ok")))) ==
      Obj(map["0" := Str("o"), "1" := Str("k"), "ok" := Bool(ok),
              "orderState" := Str("PROCESSING"), "statusCode" := Num(status as real)])
  {
    var fields := SpreadFields(Str("ok"));
    assert NatToString(0) == "0" && NatToString(1) == "1";
    assert fields == map["0" := Str("o"), "1" := Str("k")];
  }

  /** The whole call: the request that is sent, and what is returned. */
  function CreateCardServOrder(payload: Value, cfg: Config, now: int, reply: Reply): (r: Result<Value>)
    ensures r.Ok? <==> !BuildThrows(payload)
    ensures r.Ok? ==> r.value == Normalize(reply)
  {
    var request := BuildSale(payload, cfg, now);
    if request.Failure? then Failure(request.error) else Ok(Normalize(reply))
  }

  // ---------------------------------------------------------------------
  // properties

  /** Stripping twice strips nothing more, and extra slashes at the end
      make no difference. */
  lemma {:induction false} StripTrailingSlashesIdempotent(s: string, n: nat)
    ensures StripTrailingSlashes(StripTrailingSlashes(s)) == StripTrailingSlashes(s)
    ensures StripTrailingSlashes(s + seq(n, _ => '/')) == StripTrailingSlashes(s)
    decreases n
  {
    if n > 0 {
      var t := s + seq(n, _ => '/');
      assert t[..|t| - 1] == s + seq(n - 1, _ => '/');
      StripTrailingSlashesIdempotent(s, n - 1);
    } else {
      assert s + seq(0, _ => '/') == s;
    }
  }

  /** The base URL never ends in '/', is the configured one with its
      trailing slashes removed when that leaves something, and the test
      host otherwise. */
  lemma BaseUrlShape(cfg: Config)
    ensures BaseUrl(cfg) != [] && BaseUrl(cfg)[|BaseUrl(cfg)| - 1] != '/'
    ensures cfg.baseUrl.None? ==> BaseUrl(cfg) == TestHost
    ensures cfg.baseUrl.Some? && (forall k :: 0 <= k < |cfg.baseUrl.value| ==> cfg.baseUrl.value[k] == '/') ==>
      BaseUrl(cfg) == TestHost
    ensures cfg.baseUrl.Some? ==> var u := cfg.baseUrl.value;
      BaseUrl(cfg) == TestHost || (u == BaseUrl(cfg) + u[|BaseUrl(cfg)|..] &&
        forall k :: |BaseUrl(cfg)| <= k < |u| ==> u[k] == '/')
  {
    if cfg.baseUrl.Some? {
      var u := cfg.baseUrl.value;
      var r := StripTrailingSlashes(u);
      assert r == [] || r[|r| - 1] == u[|r| - 1];
    }
  }

  /** The sale URL is the base, the fixed path and the requestor id; there
      is never a double slash at the join. */
  lemma SaleUrlShape(cfg: Config)
    ensures var u := SaleUrl(cfg); var b := BaseUrl(cfg);
      StartsWith(u, b) && u[|b|..] == "/api/payments/sale/" + EnvText(cfg.requestorId) && u[|b| - 1] != '/'
    ensures cfg.requestorId.Some? ==> var u := SaleUrl(cfg); var id := cfg.requestorId.value;
      u[|u| - |id|..] == id
  {
    BaseUrlShape(cfg);
    var b := BaseUrl(cfg);
    var u := SaleUrl(cfg);
    assert u[..|b|] == b;
    assert u[|b|..] == "/api/payments/sale/" + EnvText(cfg.requestorId);
  }

  /** The merchant reference and currency code depend on the configuration
      only: two payloads give the same ones. */
  lemma ConfigFieldsIgnorePayload(p1: Value, p2: Value, cfg: Config, now1: int, now2: int)
    requires BuildSale(p1, cfg, now1).Ok? && BuildSale(p2, cfg, now2).Ok?
    ensures BuildSale(p1, cfg, now1).value.body.order.merchantId == BuildSale(p2, cfg, now2).value.body.order.merchantId
    ensures BuildSale(p1, cfg, now1).value.body.order.currencyCode == BuildSale(p2, cfg, now2).value.body.order.currencyCode
    ensures BuildSale(p1, cfg, now1).value.url == BuildSale(p2, cfg, now2).value.url
  {
  }

  /** The currency code is the configured one unless that is unset or
      empty, and then "EUR". */
  lemma CurrencyCodeDefault(cfg: Config)
    ensures cfg.currency.None? || cfg.currency == Some([]) ==> CurrencyCode(cfg) == "EUR"
    ensures cfg.currency.Some? && cfg.currency.value != [] ==> CurrencyCode(cfg) == cfg.currency.value
  {
  }

  /** A name of two words or more: the first word is the first name, the
      second the last name, the rest is dropped. */
  lemma NameWords(first: string, last: string, more: string)
    requires first != [] && last != [] && ' ' !in first && ' ' !in last
    requires more == [] || more[0] == ' '
    ensures NameParts(Str(first + " " + last + more)) == Ok((first, last))
  {
    SplitTwoPieces(first, last, more, " ");
  }

  /** A single word is the first name and the last name is "Doe"; an empty
      or missing name gives "John" and "Doe". */
  lemma NameDefaults(word: string)
    requires ' ' !in word
    ensures NameParts(Str(word)) == Ok((if word == [] then "John" else word, "Doe"))
    ensures NameParts(Undefined) == Ok(("John", "Doe")) == NameParts(Null)
  {
    SplitWithout(word, " ");
  }

  /** "MM/YY" gives month "MM" and year "20YY"; a missing expiry gives
      "10" and "2026". */
  lemma ExpirySplit(month: string, year: string)
    requires month != [] && year != [] && '/' !in month && '/' !in year
    ensures ExpiryParts(Str(month + "/" + year)) == Ok((month, "20" + year))
    ensures ExpiryParts(Undefined) == Ok(("10", "2026")) == ExpiryParts(Null)
  {
    SplitFirst(month, year, "/");
    SplitWithout(year, "/");
    assert "20" + "26" == "2026";
  }

  /** An amount of whole cents is written with two decimals whose digits,
      read without the point, are the number of cents. */
  lemma Fixed2OfCents(k: nat)
    ensures var r := Fixed2(k as real / 100.0);
      r[|r| - 3] == '.' && AllDigits(Remove(r, '.')) && DigitsValue(Remove(r, '.')) == k
  {
    var x := k as real / 100.0;
    assert x * 100.0 == k as real;
    RoundOfInteger(k);
    var a := NatToString(k / 100);
    var d1 := DigitChar(k % 100 / 10);
    var d2 := DigitChar(k % 10);
    assert Fixed2(x) == a + "." + [d1, d2];
    DecimalDigits(a, d1, d2);
    DigitsValueSnoc(a, d1);
    DigitsValueSnoc(a + [d1], d2);
    CentsValue(k);
  }

  /** Removing the point from "a.bc" leaves "abc". */
  lemma DecimalDigits(a: string, d1: char, d2: char)
    requires AllDigits(a) && IsDigit(d1) && IsDigit(d2)
    ensures Remove(a + "." + [d1, d2], '.') == a + [d1] + [d2]
  {
    RemoveAppend(a + ".", [d1, d2], '.');
    RemoveAppend(a, ".", '.');
    RemoveAbsent(a, '.');
    RemoveAbsent([d1, d2], '.');
    assert Remove(".", '.') == [];
    assert [d1, d2] == [d1] + [d2];
  }

  lemma CentsValue(k: nat)
    ensures (k / 100 * 10 + k % 100 / 10) * 10 + k % 10 == k
  {
    var q := k / 100;
    var m := k % 100;
    assert k == q * 100 + m;
    assert m == m / 10 * 10 + m % 10;
    assert k % 10 == m % 10;
  }

  /** A reply that is not JSON is recorded as still processing, with its
      raw text kept. */
  lemma NotJsonReply(reply: Reply)
    requires reply.parsed.None?
    ensures var r := Normalize(reply);
      r.fields["orderState"] == Str("PROCESSING") && "raw" in r.fields && r.fields["raw"] == Str(reply.raw)
  {
  }

  /** The reported state is the gateway's when that is truthy, and
      "PROCESSING" otherwise. */
  lemma OrderStateChoice(reply: Reply)
    ensures var s := Get(ParsedBody(reply), "orderState");
      Normalize(reply).fields["orderState"] == (if Truthy(s) then s else Str("PROCESSING"))
  {
  }
}

/**
 * The bot's callback handlers (internal/handler/handler.go): callback data
 * `<route>?k=v&…` parsing and building, the price of a period, the payment
 * keyboard, and the purchase the crypto button creates.
 *
 * The Telegram API is replaced by two logs: the Crypto Pay invoice requests
 * and the keyboards the handler puts on the chat's message. What Crypto Pay
 * answers and whether the purchase insert fails are inputs.
 */
module Handler {
  import opened Wrappers
  import Text
  import Http
  import Settings
  import P = Purchases
  import C = Customers
  import CryptoPay
  import Payment
  import Callbacks
  import App

  const CallbackCrypto := "crypto"
  const CallbackCard := "card"
  const CallbackTelegramStars := "telegram_stars"

  /** Whether a `k=v` parameter names key k. */
  predicate Names(param: string, key: string)
  {
    Text.Cut(param, '=').Some? && Text.Cut(param, '=').value.0 == key
  }

  /** The parameters taken in order into a map: each splits at its first `=`, those without one are skipped, later ones overwrite. */
  function Params(params: seq<string>): map<string, string>
  {
    if params == [] then map[]
    else
      var n := |params| - 1;
      var m := Params(params[..n]);
      match Text.Cut(params[n], '=')
      case None => m
      case Some(kv) => m[kv.0 := kv.1]
  }

  /** What parseCallbackData returns: only the text between the first and the second `?` is read. */
  function Parsed(data: string): map<string, string>
  {
    var parts := Text.Split(data, '?');
    if |parts| < 2 then map[] else Params(Text.Split(parts[1], '&'))
  }

  /** A missing key reads as "", as a Go map does. */
  function Lookup(m: map<string, string>, key: string): string
  {
    if key in m then m[key] else ""
  }

  /** parseCallbackData. */
  method ParseCallbackData(data: string) returns (result: map<string, string>)
    ensures result == Parsed(data)
  {
    result := map[];
    var parts := Text.Split(data, '?');
    if |parts| < 2 {
      return;
    }
    var params := Text.Split(parts[1], '&');
    var i := 0;
    while i < |params|
      invariant 0 <= i <= |params|
      invariant result == Params(params[..i])
    {
      var kv := Text.Cut(params[i], '=');
      if kv.Some? {
        result := result[kv.value.0 := kv.value.1];
      }
      assert params[..i + 1][..i] == params[..i];
      i := i + 1;
    }
    assert params[..i] == params;
  }

  /** The keys are exactly those some parameter names. */
  lemma {:induction false} ParamsKeys(params: seq<string>, key: string)
    ensures key in Params(params) <==> exists i :: 0 <= i < |params| && Names(params[i], key)
  {
    if params != [] {
      var n := |params| - 1;
      ParamsKeys(params[..n], key);
      if exists i :: 0 <= i < |params| && Names(params[i], key) {
        var i :| 0 <= i < |params| && Names(params[i], key);
        if i < n {
          assert params[..n][i] == params[i];
        }
      }
      if exists i :: 0 <= i < n && Names(params[..n][i], key) {
        var i :| 0 <= i < n && Names(params[..n][i], key);
        assert Names(params[i], key);
      }
    }
  }

  /** The value of a key is the one given by the last parameter that names it. */
  lemma {:induction false} ParamsLastWins(params: seq<string>, i: int, key: string, value: string)
    requires 0 <= i < |params| && Text.Cut(params[i], '=') == Some((key, value))
    requires forall j :: i < j < |params| ==> !Names(params[j], key)
    ensures key in Params(params) && Params(params)[key] == value
  {
    var n := |params| - 1;
    if i < n {
      ParamsLastWins(params[..n], i, key, value);
    }
  }

  /** Every value is the text after the first `=` of a parameter. */
  lemma {:induction false} ParamsValues(params: seq<string>)
    ensures forall key :: key in Params(params) ==>
      exists i :: 0 <= i < |params| && Text.Cut(params[i], '=') == Some((key, Params(params)[key]))
  {
    if params != [] {
      var n := |params| - 1;
      ParamsValues(params[..n]);
      forall key | key in Params(params)
        ensures exists i :: 0 <= i < |params| && Text.Cut(params[i], '=') == Some((key, Params(params)[key]))
      {
        if Text.Cut(params[n], '=').Some? && Text.Cut(params[n], '=').value.0 == key {
          assert Text.Cut(params[n], '=') == Some((key, Params(params)[key]));
        } else {
          assert key in Params(params[..n]) && Params(params)[key] == Params(params[..n])[key];
          var i :| 0 <= i < n && Text.Cut(params[..n][i], '=') == Some((key, Params(params[..n])[key]));
          assert params[i] == params[..n][i];
        }
      }
    }
  }

  /**
   * Data without `?` has no parameters; a parsed value never holds `?` or
   * `&`, since those delimit the parameters.
   */
  lemma ParsedRules(data: string)
    ensures '?' !in data ==> Parsed(data) == map[]
    ensures forall key :: key in Parsed(data) ==> '?' !in Parsed(data)[key] && '&' !in Parsed(data)[key]
  {
    if '?' !in data {
      Text.SplitWithoutSeparator(data, '?');
    }
    var parts := Text.Split(data, '?');
    if |parts| >= 2 {
      var params := Text.Split(parts[1], '&');
      Text.SplitPiecesHaveNoSeparator(data, '?');
      assert parts[1] in parts;
      Text.SplitPiecesAvoid(parts[1], '&', '?');
      Text.SplitPiecesHaveNoSeparator(parts[1], '&');
      ParamsValues(params);
      forall key | key in Parsed(data)
        ensures '?' !in Parsed(data)[key] && '&' !in Parsed(data)[key]
      {
        var i :| 0 <= i < |params| && Text.Cut(params[i], '=') == Some((key, Parsed(data)[key]));
        assert params[i] in params;
        assert params[i] == key + "=" + Parsed(data)[key];
      }
    }
  }

  /** A lone `month=<m>` parameter parses to exactly that entry. */
  lemma MonthParam(month: string)
    requires '?' !in month && '&' !in month
    ensures '?' !in "month=" + month
    ensures Params(Text.Split("month=" + month, '&')) == map["month" := month]
  {
    var p := "month=" + month;
    assert p == "month" + ['='] + month;
    Text.SplitWithoutSeparator(p, '&');
    Text.CutAfterPrefix("month", month, '=');
    assert [p][..0] == [];
  }

  /** A route carrying one `month` parameter parses back to exactly that parameter. */
  lemma RouteCarriesMonth(route: string, month: string)
    requires '?' !in route && '?' !in month && '&' !in month
    ensures Text.Split(route + "?month=" + month, '?') == [route, "month=" + month]
    ensures Parsed(route + "?month=" + month) == map["month" := month]
  {
    var p := "month=" + month;
    MonthParam(month);
    assert route + "?month=" + month == route + ['?'] + p;
    Text.SplitAfterPrefix(route, p, '?');
    Text.SplitWithoutSeparator(p, '?');
  }

  /** buildSellCallbackData. */
  function BuildSellCallbackData(month: int): string
  {
    Callbacks.CallbackSell + "?month=" + Text.IntToString(month)
  }

  /** Parsing the sell data gives back exactly the month, in decimal, and Atoi reads the month itself. */
  lemma SellRoundTrip(month: int)
    ensures Parsed(BuildSellCallbackData(month)) == map["month" := Text.IntToString(month)]
    ensures Text.ParseInt(Lookup(Parsed(BuildSellCallbackData(month)), "month")) == Some(month)
  {
    Text.IntToStringHasNo(month, '?');
    Text.IntToStringHasNo(month, '&');
    RouteCarriesMonth(Callbacks.CallbackSell, Text.IntToString(month));
    Text.ParseIntRoundTrip(month);
  }

  /** calculatePrice. */
  function CalculatePrice(conf: Settings.Config, month: int): (price: int)
    ensures month == 1 ==> price == conf.price1
    ensures month == 3 ==> price == 3 * conf.price3
    ensures month == 6 ==> price == 6 * conf.price6
    ensures month == 12 ==> price == 12 * conf.price12
    ensures month !in {3, 6, 12} ==> price == month * conf.price1
  {
    Settings.Price(conf, month) * month
  }

  /** A button's text: a translation key or literal text. */
  datatype Label = Translated(key: string) | Plain(text: string)

  datatype Button = CallbackButton(caption: Label, data: string) | LinkButton(caption: Label, url: string)

  /** A payment button: the backend's route carrying the month. */
  function PayButton(caption: Label, route: string, month: string): Button
  {
    CallbackButton(caption, route + "?month=" + month)
  }

  const BackToStart: Button := CallbackButton(Translated("back_button"), Callbacks.CallbackStart)

  /** SellCallbackHandler's keyboard: one button per enabled backend, then back to the start menu. */
  function SellKeyboard(conf: Settings.Config, data: string): seq<Button>
  {
    PayButtons(conf, Lookup(Parsed(data), "month")) + [BackToStart]
  }

  /** The payment buttons for one month, one per enabled backend. */
  function PayButtons(conf: Settings.Config, month: string): seq<Button>
  {
    (if conf.isCryptoEnabled then [PayButton(Translated("crypto_button"), CallbackCrypto, month)] else [])
    + (if conf.isYookasaEnabled then [PayButton(Translated("card_button"), CallbackCard, month)] else [])
    + (if conf.isTelegramStarsEnabled then [PayButton(Plain("⭐Telegram Stars"), CallbackTelegramStars, month)] else [])
  }

  /** The position of a route in the keyboard's order. */
  function Rank(route: string): int
  {
    if route == CallbackCrypto then 0
    else if route == CallbackCard then 1
    else if route == CallbackTelegramStars then 2
    else 3
  }

  /** The route a button's data leads to: its text before the first `?`. */
  function Route(b: Button): string
  {
    if b.CallbackButton? then Text.Split(b.data, '?')[0] else ""
  }

  /** The routes of a keyboard's buttons, in order. */
  function Routes(kb: seq<Button>): (routes: seq<string>)
    ensures |routes| == |kb| && forall j :: 0 <= j < |kb| ==> routes[j] == Route(kb[j])
  {
    if kb == [] then [] else [Route(kb[0])] + Routes(kb[1..])
  }

  lemma {:induction false} RoutesAppend(a: seq<Button>, b: seq<Button>)
    ensures Routes(a + b) == Routes(a) + Routes(b)
  {
    if a == [] {
      assert a + b == b;
    } else {
      assert (a + b)[0] == a[0] && (a + b)[1..] == a[1..] + b;
      RoutesAppend(a[1..], b);
    }
  }

  /** The routes strictly follow the order of Rank. */
  predicate Ranked(routes: seq<string>)
  {
    forall i, j :: 0 <= i < j < |routes| ==> Rank(routes[i]) < Rank(routes[j])
  }

  lemma PayButtonCarries(caption: Label, route: string, month: string)
    requires '?' !in route && '?' !in month && '&' !in month
    ensures Route(PayButton(caption, route, month)) == route
    ensures Parsed(PayButton(caption, route, month).data) == map["month" := month]
  {
    RouteCarriesMonth(route, month);
  }

  lemma BackRoute()
    ensures Route(BackToStart) == Callbacks.CallbackStart
  {
    Text.SplitWithoutSeparator(Callbacks.CallbackStart, '?');
  }

  /** The routes a keyboard with these backends enabled offers, in order. */
  function SellRoutes(crypto: bool, card: bool, stars: bool): seq<string>
  {
    (if crypto then [CallbackCrypto] else []) + (if card then [CallbackCard] else [])
    + (if stars then [CallbackTelegramStars] else []) + [Callbacks.CallbackStart]
  }

  lemma SellRoutesRanked(crypto: bool, card: bool, stars: bool)
    ensures var routes := SellRoutes(crypto, card, stars);
      && Ranked(routes)
      && (CallbackCrypto in routes <==> crypto)
      && (CallbackCard in routes <==> card)
      && (CallbackTelegramStars in routes <==> stars)
  {
  }

  lemma OptionalRoutes(c1: bool, c2: bool, c3: bool, b1: Button, b2: Button, b3: Button)
    requires Route(b1) == CallbackCrypto && Route(b2) == CallbackCard && Route(b3) == CallbackTelegramStars
    ensures Routes((if c1 then [b1] else []) + (if c2 then [b2] else []) + (if c3 then [b3] else []) + [BackToStart])
         == SellRoutes(c1, c2, c3)
  {
    BackRoute();
    var o1 := if c1 then [b1] else [];
    var o2 := if c2 then [b2] else [];
    var o3 := if c3 then [b3] else [];
    assert Routes(o1) == (if c1 then [CallbackCrypto] else []);
    assert Routes(o2) == (if c2 then [CallbackCard] else []);
    assert Routes(o3) == (if c3 then [CallbackTelegramStars] else []);
    assert Routes([BackToStart]) == [Callbacks.CallbackStart];
    RoutesAppend(o1, o2);
    RoutesAppend(o1 + o2, o3);
    RoutesAppend(o1 + o2 + o3, [BackToStart]);
  }

  lemma SellKeyboardRoutes(conf: Settings.Config, data: string)
    ensures Routes(SellKeyboard(conf, data)) == SellRoutes(conf.isCryptoEnabled, conf.isYookasaEnabled, conf.isTelegramStarsEnabled)
  {
    var month := Lookup(Parsed(data), "month");
    ParsedRules(data);
    PayButtonCarries(Translated("crypto_button"), CallbackCrypto, month);
    PayButtonCarries(Translated("card_button"), CallbackCard, month);
    PayButtonCarries(Plain("⭐Telegram Stars"), CallbackTelegramStars, month);
    OptionalRoutes(conf.isCryptoEnabled, conf.isYookasaEnabled, conf.isTelegramStarsEnabled,
                   PayButton(Translated("crypto_button"), CallbackCrypto, month),
                   PayButton(Translated("card_button"), CallbackCard, month),
                   PayButton(Plain("⭐Telegram Stars"), CallbackTelegramStars, month));
  }

  /**
   * The payment buttons come in the order crypto, card, stars, each present
   * exactly when its backend is enabled, and the last button always leads
   * back to the start menu.
   */
  lemma SellKeyboardOrder(conf: Settings.Config, data: string)
    ensures var kb := SellKeyboard(conf, data);
      && kb[|kb| - 1] == BackToStart
      && Ranked(Routes(kb))
      && (CallbackCrypto in Routes(kb) <==> conf.isCryptoEnabled)
      && (CallbackCard in Routes(kb) <==> conf.isYookasaEnabled)
      && (CallbackTelegramStars in Routes(kb) <==> conf.isTelegramStarsEnabled)
  {
    SellKeyboardRoutes(conf, data);
    SellRoutesRanked(conf.isCryptoEnabled, conf.isYookasaEnabled, conf.isTelegramStarsEnabled);
  }

  /** Every payment button carries the month it was given, so the next handler parses the same month. */
  lemma SellKeyboardMonth(conf: Settings.Config, data: string)
    ensures var kb := SellKeyboard(conf, data);
      forall j :: 0 <= j < |kb| - 1 ==> Parsed(kb[j].data) == map["month" := Lookup(Parsed(data), "month")]
  {
    var month := Lookup(Parsed(data), "month");
    ParsedRules(data);
    PayButtonsCarry(conf, month);
    var pay := PayButtons(conf, month);
    var kb := SellKeyboard(conf, data);
    forall j | 0 <= j < |kb| - 1
      ensures Parsed(kb[j].data) == map["month" := month]
    {
      assert kb[j] == pay[j] && pay[j] in pay;
    }
  }

  lemma PayButtonsCarry(conf: Settings.Config, month: string)
    requires '?' !in month && '&' !in month
    ensures forall b :: b in PayButtons(conf, month) ==> Parsed(b.data) == map["month" := month]
  {
    PayButtonCarries(Plain("⭐Telegram Stars"), CallbackTelegramStars, month);
    PayButtonCarries(Translated("card_button"), CallbackCard, month);
    PayButtonCarries(Translated("crypto_button"), CallbackCrypto, month);
  }

  /** A keyboard placed on one of the chat's messages. */
  datatype Edit = Edit(chatId: int, messageId: int, keyboard: seq<Button>)

  /** The purchase table and the handler's two logs. */
  datatype Desk = Desk(purchases: seq<P.Purchase>, invoices: seq<CryptoPay.InvoiceRequest>, edits: seq<Edit>)

  /** The payload the crypto handler puts on its invoices. */
  function CheckoutPayload(chatId: int, purchaseId: int): string
  {
    "customerId=" + Text.IntToString(chatId) + "&purchaseId=" + Text.IntToString(purchaseId)
  }

  function CheckoutRequest(price: int, month: int, chatId: int, purchaseId: int, botUrl: string): CryptoPay.InvoiceRequest
  {
    CryptoPay.InvoiceRequest("fiat", "RUB", Text.IntToString(price), "USDT", CheckoutPayload(chatId, purchaseId),
                             "Subscription on " + Text.IntToString(month) + " month", "callback", botUrl)
  }

  /** The month the callback data asks for, when Atoi accepts it. */
  function Month(data: string): Option<int>
  {
    Text.ParseInt(Lookup(Parsed(data), "month"))
  }

  /** CryptoCallbackHandler. */
  function CryptoCheckout(d: Desk, customers: seq<C.Customer>, data: string, chatId: int, messageId: int, now: int,
                          conf: Settings.Config, insertFault: bool, answer: Result<CryptoPay.Invoice, Http.Failure>): Desk
  {
    var month := Month(data);
    if month.None? then d
    else
      match C.FindTelegram(customers, chatId)
      case None => d
      case Some(c) => if insertFault then d else Checkout(d, c, month.value, chatId, messageId, now, conf, answer)
  }

  /** CryptoCallbackHandler once the month parsed, the customer was found and the insert went through. */
  function Checkout(d: Desk, c: C.Customer, month: int, chatId: int, messageId: int, now: int,
                    conf: Settings.Config, answer: Result<CryptoPay.Invoice, Http.Failure>): Desk
  {
    var price := CalculatePrice(conf, month);
    var id := |d.purchases| + 1;
    var rows := d.purchases + [P.Inserted(Payment.NewRow(P.Crypto, "RUB", price, c.id, month), id, now)];
    var d1 := d.(purchases := rows, invoices := d.invoices + [CheckoutRequest(price, month, chatId, id, conf.botUrl)]);
    match answer
    case Err(_) => d1
    case Ok(invoice) =>
      d1.(purchases := P.Updated(rows, id, Payment.CryptoUpdates(invoice)),
          edits := d.edits + [Edit(chatId, messageId, [LinkButton(Translated("pay_button"), invoice.botInvoiceUrl),
                                                       CallbackButton(Translated("back_button"), BuildSellCallbackData(month))])])
  }

  /**
   * The crypto button writes nothing unless the month parses, the chat has a
   * customer and the insert succeeds. It then inserts one `new` crypto row
   * for that customer at the price of the period, and asks Crypto Pay for an
   * invoice whose payload is `customerId=<chat>&purchaseId=<row id>`. Only
   * when the invoice comes back does the row turn `pending` with the
   * invoice's id and URL and the chat get the pay button; otherwise the row
   * stays `new`. The crypto poller reads that payload as purchase 0.
   */
  lemma CheckoutRules(d: Desk, customers: seq<C.Customer>, data: string, chatId: int, messageId: int, now: int,
                      conf: Settings.Config, insertFault: bool, answer: Result<CryptoPay.Invoice, Http.Failure>)
    requires P.WellKeyed(d.purchases)
    ensures var r := CryptoCheckout(d, customers, data, chatId, messageId, now, conf, insertFault, answer);
      && (Month(data).None? || C.FindTelegram(customers, chatId).None? || insertFault ==> r == d)
      && (r != d ==>
            var month := Month(data).value;
            var id := |d.purchases| + 1;
            && |r.purchases| == id && r.purchases[..id - 1] == d.purchases
            && var q := r.purchases[id - 1];
            && q.id == id && q.invoiceType == P.Crypto && q.month == month
            && q.customerId == C.FindTelegram(customers, chatId).value.id
            && q.amount == Settings.Price(conf, month) * month
            && r.invoices == d.invoices + [CheckoutRequest(q.amount, month, chatId, id, conf.botUrl)]
            && App.PurchaseIdOf(r.invoices[|d.invoices|].payload) == Some(0)
            && (answer.Err? ==> q.status == P.New && q.cryptoInvoiceId.None? && q.cryptoInvoiceUrl.None? && r.edits == d.edits)
            && (answer.Ok? ==>
                  && q.status == P.Pending && q.cryptoInvoiceId == answer.value.invoiceId
                  && q.cryptoInvoiceUrl == Some(answer.value.botInvoiceUrl)
                  && |r.edits| == |d.edits| + 1
                  && Month(r.edits[|d.edits|].keyboard[1].data) == Some(month)))
  {
    var month := Month(data);
    if month.Some? && C.FindTelegram(customers, chatId).Some? && !insertFault {
      CheckoutRow(d, C.FindTelegram(customers, chatId).value, month.value, chatId, messageId, now, conf, answer);
    }
  }

  lemma CheckoutRow(d: Desk, c: C.Customer, month: int, chatId: int, messageId: int, now: int,
                    conf: Settings.Config, answer: Result<CryptoPay.Invoice, Http.Failure>)
    ensures var r := Checkout(d, c, month, chatId, messageId, now, conf, answer);
      var id := |d.purchases| + 1;
      && r != d
      && |r.purchases| == id && r.purchases[..id - 1] == d.purchases
      && var q := r.purchases[id - 1];
      && q.id == id && q.invoiceType == P.Crypto && q.month == month && q.customerId == c.id
      && q.amount == Settings.Price(conf, month) * month
      && q.yookasaId.None? && q.yookasaUrl.None?
      && r.invoices == d.invoices + [CheckoutRequest(q.amount, month, chatId, id, conf.botUrl)]
      && App.PurchaseIdOf(r.invoices[|d.invoices|].payload) == Some(0)
      && (answer.Err? ==> q.status == P.New && q.cryptoInvoiceId.None? && q.cryptoInvoiceUrl.None? && r.edits == d.edits)
      && (answer.Ok? ==>
            && q.status == P.Pending && q.cryptoInvoiceId == answer.value.invoiceId
            && q.cryptoInvoiceUrl == Some(answer.value.botInvoiceUrl)
            && |r.edits| == |d.edits| + 1
            && Month(r.edits[|d.edits|].keyboard[1].data) == Some(month))
  {
    var id := |d.purchases| + 1;
    var row := P.Inserted(Payment.NewRow(P.Crypto, "RUB", CalculatePrice(conf, month), c.id, month), id, now);
    App.HandlerPayloadReadsAsZero(chatId, id);
    P.UpdatedLastRow(d.purchases, row, []);
    var r := Checkout(d, c, month, chatId, messageId, now, conf, answer);
    assert |r.invoices| > |d.invoices|;
    if answer.Ok? {
      var inv := answer.value;
      P.UpdatedLastRow(d.purchases, row, Payment.CryptoUpdates(inv));
      Payment.ApplyThree(row, P.SetCryptoInvoiceUrl(inv.botInvoiceUrl), P.SetCryptoInvoiceId(inv.invoiceId), P.SetStatus(P.Pending));
      SellRoundTrip(month);
    }
  }

  /**
   * The checkout shares the purchase table with the payment service and the
   * pollers, and keeps its correlation fields coherent: the row it adds is a
   * crypto row that carries only Crypto Pay's fields.
   */
  lemma CheckoutKeepsCoherence(d: Desk, customers: seq<C.Customer>, data: string, chatId: int, messageId: int, now: int,
                               conf: Settings.Config, insertFault: bool, answer: Result<CryptoPay.Invoice, Http.Failure>)
    requires Payment.Consistent(d.purchases)
    ensures Payment.Consistent(CryptoCheckout(d, customers, data, chatId, messageId, now, conf, insertFault, answer).purchases)
  {
    var month := Month(data);
    if month.Some? && C.FindTelegram(customers, chatId).Some? && !insertFault {
      CheckoutRow(d, C.FindTelegram(customers, chatId).value, month.value, chatId, messageId, now, conf, answer);
      var rows := CryptoCheckout(d, customers, data, chatId, messageId, now, conf, insertFault, answer).purchases;
      forall i | 0 <= i < |rows|
        ensures Payment.Coherent(rows[i])
      {
        if i < |d.purchases| {
          assert rows[i] == rows[..|d.purchases|][i];
        }
      }
    }
  }

  class Handler {
    const purchases: P.PurchaseRepository
    const customers: C.CustomerRepository
    const settings: Settings.Settings
    var invoices: seq<CryptoPay.InvoiceRequest>
    var edits: seq<Edit>

    ghost predicate Valid()
      reads this, purchases, customers
    {
      purchases.Valid() && customers.Valid() && Payment.Consistent(purchases.rows)
    }

    function Snapshot(): Desk
      reads this, purchases
    {
      Desk(purchases.rows, invoices, edits)
    }

    constructor (purchases: P.PurchaseRepository, customers: C.CustomerRepository, settings: Settings.Settings)
      requires purchases.Valid() && customers.Valid() && Payment.Consistent(purchases.rows)
      ensures Valid()
      ensures this.purchases == purchases && this.customers == customers && this.settings == settings
      ensures invoices == [] && edits == []
    {
      this.purchases := purchases;
      this.customers := customers;
      this.settings := settings;
      invoices := [];
      edits := [];
    }

    /** CryptoCallbackHandler; `insertFault` is the fate of the insert and `answer` Crypto Pay's reply. */
    method CryptoCallbackHandler(data: string, chatId: int, messageId: int, now: int,
                                 insertFault: bool, answer: Result<CryptoPay.Invoice, Http.Failure>)
      requires Valid()
      modifies this, purchases
      ensures Valid()
      ensures Snapshot() == CryptoCheckout(old(Snapshot()), customers.rows, data, chatId, messageId, now, settings.conf, insertFault, answer)
    {
      CheckoutKeepsCoherence(Snapshot(), customers.rows, data, chatId, messageId, now, settings.conf, insertFault, answer);
      var query := ParseCallbackData(data);
      var month := Text.ParseInt(Lookup(query, "month"));
      if month.None? {
        return;
      }
      var customer := customers.FindByTelegramId(chatId);
      if customer.None? {
        return;
      }
      var price := CalculatePrice(settings.conf, month.value);
      var id, failed := purchases.Create(Payment.NewRow(P.Crypto, "RUB", price, customer.value.id, month.value), now, insertFault);
      if failed {
        return;
      }
      invoices := invoices + [CheckoutRequest(price, month.value, chatId, id, settings.conf.botUrl)];
      if answer.Err? {
        return;
      }
      var invoice := answer.value;
      failed := purchases.UpdateFields(id, Payment.CryptoUpdates(invoice));
      if failed {
        return;
      }
      edits := edits + [Edit(chatId, messageId, [LinkButton(Translated("pay_button"), invoice.botInvoiceUrl),
                                                 CallbackButton(Translated("back_button"), BuildSellCallbackData(month.value))])];
    }
  }
}

/**
 * The payment orchestrator (internal/payment/payment.go). The service owns the
 * purchase and customer tables and three logs: the provisioning requests sent
 * to the panel, the invoices requested from the gateways, and the Telegram
 * messages delivered. What the panel and the gateways answer is an input.
 *
 * Each operation is specified by a function over a `World`, the values of the
 * two tables and the three logs; the methods of `PaymentService` perform the
 * same writes step by step and are proved equal to those functions.
 */
module Payment {
  import opened Wrappers
  import Text
  import P = Purchases
  import C = Customers
  import Settings
  import Http
  import Remnawave
  import Yookasa
  import CryptoPay

  /** One CreateOrUpdateUser request. */
  datatype ProvisionCall = ProvisionCall(customerId: int, telegramId: int, trafficLimit: int, days: int)

  /** One invoice request to a gateway. */
  datatype GatewayCall =
    | CryptoInvoice(crypto: CryptoPay.InvoiceRequest)
    | YookasaInvoice(yookasa: Yookasa.PaymentRequest, idempotenceKey: string)
    | StarsInvoice(payload: string, amount: int, language: string)

  /** A Telegram message: chat, language, text key, and a button (text key and URL). */
  datatype Message = Message(chatId: int, language: string, textKey: string, buttonKey: string, buttonUrl: string)

  datatype PaymentError =
    | PurchaseNotFound(purchaseId: int)
    | CustomerNotFound(customerId: int)
    | TelegramCustomerNotFound(telegramId: int)
    | ProvisionFailed(cause: Remnawave.ClientError)
    | StoreFailed
    | GatewayFailed(failure: Http.Failure)
    | SendFailed
    | UnknownInvoiceType(kind: string)

  datatype World = World(
    purchases: seq<P.Purchase>,
    customers: seq<C.Customer>,
    provisioning: seq<ProvisionCall>,
    invoices: seq<GatewayCall>,
    messages: seq<Message>)

  /** The world after an operation, and its error if any. */
  datatype Done = Done(world: World, err: Option<PaymentError>)

  /** The world after a purchase was created or activated, the link handed back, and the error if any. */
  datatype Linked = Linked(world: World, url: string, err: Option<PaymentError>)

  /** What the gateways answer to one CreatePurchase. */
  datatype GatewayAnswers = GatewayAnswers(
    crypto: Result<CryptoPay.Invoice, Http.Failure>,
    yookasa: Http.Reply<Yookasa.Payment>,
    idempotenceKey: string,
    username: Yookasa.MetaValue,
    starsLink: Option<string>)

  /** Only a gateway's own rows carry its correlation fields, and a pending YooKassa row knows its payment id. */
  predicate Coherent(p: P.Purchase)
  {
    && (p.invoiceType == P.Yookasa && p.status == P.Pending ==> p.yookasaId.Some?)
    && (p.invoiceType != P.Yookasa ==> p.yookasaId.None? && p.yookasaUrl.None?)
    && (p.invoiceType != P.Crypto ==> p.cryptoInvoiceId.None? && p.cryptoInvoiceUrl.None?)
  }

  predicate Consistent(rows: seq<P.Purchase>)
  {
    forall i :: 0 <= i < |rows| ==> Coherent(rows[i])
  }

  /** The customer writes that record a provisioned subscription. */
  function SubscriptionUpdates(user: Remnawave.User): seq<C.Update>
  {
    [C.SetSubscriptionLink(user.subscriptionUrl), C.SetExpireAt(user.expireAt)]
  }

  /** ProcessPurchaseById. */
  function Process(w: World, purchaseId: int, now: int, trafficLimit: int,
                   answer: Result<Remnawave.User, Remnawave.ClientError>, sendFails: bool): Done
  {
    match P.Find(w.purchases, purchaseId)
    case None => Done(w, Some(PurchaseNotFound(purchaseId)))
    case Some(p) =>
      match C.Find(w.customers, p.customerId)
      case None => Done(w, Some(CustomerNotFound(p.customerId)))
      case Some(c) =>
        var w1 := w.(provisioning := w.provisioning + [ProvisionCall(c.id, c.telegramId, trafficLimit, p.month * 30)]);
        match answer
        case Err(e) => Done(w1, Some(ProvisionFailed(e)))
        case Ok(user) =>
          var w2 := w1.(purchases := P.Updated(w.purchases, purchaseId, [P.SetStatus(P.Paid), P.SetPaidAt(now)]),
                        customers := C.Updated(w.customers, c.id, SubscriptionUpdates(user)));
          if sendFails then Done(w2, Some(SendFailed))
          else Done(w2.(messages := w.messages + [Message(c.telegramId, c.language, "subscription_activated", "connect_button", user.subscriptionUrl)]), None)
  }

  /** ProcessPurchaseById fails without writing anything when the purchase or its customer is missing. */
  lemma ProcessNeedsPurchaseAndCustomer(w: World, purchaseId: int, now: int, trafficLimit: int,
                                        answer: Result<Remnawave.User, Remnawave.ClientError>, sendFails: bool)
    ensures P.Find(w.purchases, purchaseId).None? ==>
      Process(w, purchaseId, now, trafficLimit, answer, sendFails) == Done(w, Some(PurchaseNotFound(purchaseId)))
    ensures P.Find(w.purchases, purchaseId).Some? && C.Find(w.customers, P.Find(w.purchases, purchaseId).value.customerId).None? ==>
      Process(w, purchaseId, now, trafficLimit, answer, sendFails) == Done(w, Some(CustomerNotFound(P.Find(w.purchases, purchaseId).value.customerId)))
    ensures Process(w, purchaseId, now, trafficLimit, answer, sendFails).world.provisioning != w.provisioning ==>
      P.Find(w.purchases, purchaseId).Some? && C.Find(w.customers, P.Find(w.purchases, purchaseId).value.customerId).Some?
  {
  }

  /**
   * Once both rows exist, exactly one provisioning request goes out, for
   * Month·30 days at the given traffic limit, before any write; when it fails
   * neither table changes, so the purchase keeps its status.
   */
  lemma ProcessProvisionsFirst(w: World, purchaseId: int, now: int, trafficLimit: int,
                               answer: Result<Remnawave.User, Remnawave.ClientError>, sendFails: bool)
    requires P.Find(w.purchases, purchaseId).Some?
    requires C.Find(w.customers, P.Find(w.purchases, purchaseId).value.customerId).Some?
    ensures var p := P.Find(w.purchases, purchaseId).value;
      var c := C.Find(w.customers, p.customerId).value;
      var r := Process(w, purchaseId, now, trafficLimit, answer, sendFails);
      && r.world.provisioning == w.provisioning + [ProvisionCall(c.id, c.telegramId, trafficLimit, p.month * 30)]
      && r.world.invoices == w.invoices
      && (answer.Err? ==> r.world.purchases == w.purchases && r.world.customers == w.customers && r.err == Some(ProvisionFailed(answer.error)))
  {
  }

  /**
   * A successful provisioning leaves the purchase paid at `now` and gives the
   * customer the panel's subscription link and expiry; no other row of either
   * table changes; the error is the send failure alone.
   */
  lemma ProcessSucceeds(w: World, purchaseId: int, now: int, trafficLimit: int, user: Remnawave.User, sendFails: bool)
    requires P.WellKeyed(w.purchases) && C.WellKeyed(w.customers)
    requires P.Find(w.purchases, purchaseId).Some?
    requires C.Find(w.customers, P.Find(w.purchases, purchaseId).value.customerId).Some?
    ensures var p := P.Find(w.purchases, purchaseId).value;
      var r := Process(w, purchaseId, now, trafficLimit, Ok(user), sendFails);
      && P.Find(r.world.purchases, purchaseId) == Some(p.(status := P.Paid, paidAt := Some(now)))
      && (forall id :: id != purchaseId ==> P.Find(r.world.purchases, id) == P.Find(w.purchases, id))
      && C.Find(r.world.customers, p.customerId).value.subscriptionLink == Some(user.subscriptionUrl)
      && C.Find(r.world.customers, p.customerId).value.expireAt == Some(user.expireAt)
      && (forall id :: id != p.customerId ==> C.Find(r.world.customers, id) == C.Find(w.customers, id))
      && (r.err.None? <==> !sendFails)
  {
    var p := P.Find(w.purchases, purchaseId).value;
    var c := C.Find(w.customers, p.customerId).value;
    P.UpdatedFrame(w.purchases, purchaseId, [P.SetStatus(P.Paid), P.SetPaidAt(now)]);
    P.MarkedPaidRow(p, now, now);
    C.UpdatedFrame(w.customers, c.id, SubscriptionUpdates(user));
    C.ApplyPair(c, C.SetSubscriptionLink(user.subscriptionUrl), C.SetExpireAt(user.expireAt));
  }

  /**
   * ProcessPurchaseById never looks at the status: running it again on the
   * purchase it has just paid provisions a second time.
   */
  lemma ReprocessProvisionsAgain(w: World, purchaseId: int, now: int, later: int, trafficLimit: int,
                                 first: Remnawave.User, second: Result<Remnawave.User, Remnawave.ClientError>, sendFails: bool)
    requires P.WellKeyed(w.purchases) && C.WellKeyed(w.customers)
    requires P.Find(w.purchases, purchaseId).Some?
    requires C.Find(w.customers, P.Find(w.purchases, purchaseId).value.customerId).Some?
    ensures var w1 := Process(w, purchaseId, now, trafficLimit, Ok(first), false).world;
      && P.Find(w1.purchases, purchaseId).value.status == P.Paid
      && |Process(w1, purchaseId, later, trafficLimit, second, sendFails).world.provisioning| == |w.provisioning| + 2
  {
    var p := P.Find(w.purchases, purchaseId).value;
    var c := C.Find(w.customers, p.customerId).value;
    ProcessSucceeds(w, purchaseId, now, trafficLimit, first, false);
    var w1 := Process(w, purchaseId, now, trafficLimit, Ok(first), false).world;
    C.UpdatedFrame(w.customers, c.id, SubscriptionUpdates(first));
    assert C.Find(w1.customers, p.customerId).Some?;
  }

  /** A purchase row before the database assigns its id and creation time. */
  function NewRow(t: P.InvoiceType, currency: string, amount: int, customerId: int, months: int): P.Purchase
  {
    P.Purchase(0, amount, customerId, 0, months, None, currency, None, P.New, t, None, None, None, None)
  }

  /** The Crypto Pay invoice for purchase `purchaseId`. */
  function CryptoRequest(amount: int, months: int, purchaseId: int, botUrl: string): CryptoPay.InvoiceRequest
  {
    CryptoPay.InvoiceRequest("fiat", "RUB", Text.IntToString(amount), "USDT",
                             "purchaseId=" + Text.IntToString(purchaseId),
                             "Subscription on " + Text.IntToString(months) + " month", "callback", botUrl)
  }

  function CryptoUpdates(invoice: CryptoPay.Invoice): seq<P.Update>
  {
    [P.SetCryptoInvoiceUrl(invoice.botInvoiceUrl), P.SetCryptoInvoiceId(invoice.invoiceId), P.SetStatus(P.Pending)]
  }

  function YookasaUpdates(payment: Yookasa.Payment): seq<P.Update>
  {
    [P.SetYookasaUrl(payment.confirmation.confirmationUrl), P.SetYookasaId(payment.id), P.SetStatus(P.Pending)]
  }

  /** The table after inserting a new row of type t for this customer. */
  function WithNewRow(w: World, t: P.InvoiceType, currency: string, amount: int, customerId: int, months: int, now: int): seq<P.Purchase>
  {
    w.purchases + [P.Inserted(NewRow(t, currency, amount, customerId, months), |w.purchases| + 1, now)]
  }

  /** createCryptoInvoice. */
  function CreateCrypto(w: World, amount: int, months: int, customer: C.Customer, now: int, botUrl: string,
                        insertFault: bool, answer: Result<CryptoPay.Invoice, Http.Failure>): Linked
  {
    if insertFault then Linked(w, "", Some(StoreFailed))
    else
      var id := |w.purchases| + 1;
      var rows := WithNewRow(w, P.Crypto, "RUB", amount, customer.id, months, now);
      var w1 := w.(purchases := rows, invoices := w.invoices + [CryptoInvoice(CryptoRequest(amount, months, id, botUrl))]);
      match answer
      case Err(f) => Linked(w1, "", Some(GatewayFailed(f)))
      case Ok(invoice) => Linked(w1.(purchases := P.Updated(rows, id, CryptoUpdates(invoice))), invoice.botInvoiceUrl, None)
  }

  /** createYookasaInvoice. */
  function CreateYookasa(w: World, amount: int, months: int, customer: C.Customer, now: int, conf: Settings.Config,
                         insertFault: bool, answers: GatewayAnswers): Linked
  {
    if insertFault then Linked(w, "", Some(StoreFailed))
    else
      var id := |w.purchases| + 1;
      var rows := WithNewRow(w, P.Yookasa, "RUB", amount, customer.id, months, now);
      var call := Yookasa.CreateInvoice(amount, months, customer.id, id, answers.username, conf.yookasaEmail, conf.botUrl,
                                        answers.idempotenceKey, answers.yookasa);
      var w1 := w.(purchases := rows, invoices := w.invoices + [YookasaInvoice(call.request, call.idempotenceKey)]);
      match call.result
      case Err(f) => Linked(w1, "", Some(GatewayFailed(f)))
      case Ok(payment) =>
        Linked(w1.(purchases := P.Updated(rows, id, YookasaUpdates(payment))), payment.confirmation.confirmationUrl, None)
  }

  /** createTelegramInvoice: an insert failure returns no link and no error, and a failed link request leaves the link empty. */
  function CreateStars(w: World, amount: int, months: int, customer: C.Customer, now: int,
                       insertFault: bool, link: Option<string>): Linked
  {
    if insertFault then Linked(w, "", None)
    else
      var id := |w.purchases| + 1;
      var rows := WithNewRow(w, P.Telegram, "STARS", amount, customer.id, months, now);
      var w1 := w.(purchases := P.Updated(rows, id, [P.SetStatus(P.Pending)]),
                   invoices := w.invoices + [StarsInvoice(Text.IntToString(id), amount, customer.language)]);
      Linked(w1, if link.Some? then link.value else "", None)
  }

  /** CreatePurchase: dispatch on the invoice type's text; any other type is rejected without writes. */
  function Create(w: World, kind: string, amount: int, months: int, customer: C.Customer, now: int,
                          conf: Settings.Config, insertFault: bool, answers: GatewayAnswers): Linked
  {
    var t := P.InvoiceTypeFromName(kind);
    if t == Some(P.Crypto) then CreateCrypto(w, amount, months, customer, now, conf.botUrl, insertFault, answers.crypto)
    else if t == Some(P.Yookasa) then CreateYookasa(w, amount, months, customer, now, conf, insertFault, answers)
    else if t == Some(P.Telegram) then CreateStars(w, amount, months, customer, now, insertFault, answers.starsLink)
    else Linked(w, "", Some(UnknownInvoiceType(kind)))
  }

  lemma ApplyThree(p: P.Purchase, u: P.Update, v: P.Update, x: P.Update)
    ensures P.ApplyAll(p, [u, v, x]) == P.Apply(P.Apply(P.Apply(p, u), v), x)
  {
    assert [u, v, x][..2] == [u, v];
    P.ApplyPair(p, u, v);
  }

  lemma ApplyOne(p: P.Purchase, u: P.Update)
    ensures P.ApplyAll(p, [u]) == P.Apply(p, u)
  {
    assert [u][..0] == [];
  }

  /**
   * CreatePurchase rejects unknown types without writes. Otherwise it inserts
   * one `new` row for the customer of the requested type, months and amount.
   * For crypto and YooKassa the row turns `pending` with that gateway's id and
   * URL only after the gateway succeeds, and a gateway error leaves it `new`
   * with no correlation fields. For Telegram Stars it only turns `pending`.
   */
  lemma CreateRules(w: World, kind: string, amount: int, months: int, customer: C.Customer, now: int,
                            conf: Settings.Config, answers: GatewayAnswers)
    requires P.WellKeyed(w.purchases)
    ensures P.InvoiceTypeFromName(kind).None? ==>
      Create(w, kind, amount, months, customer, now, conf, false, answers) == Linked(w, "", Some(UnknownInvoiceType(kind)))
    ensures P.InvoiceTypeFromName(kind).Some? ==>
      var r := Create(w, kind, amount, months, customer, now, conf, false, answers);
      var id := |w.purchases| + 1;
      && |r.world.purchases| == id
      && r.world.purchases[..id - 1] == w.purchases
      && var q := r.world.purchases[id - 1];
      && q.id == id && q.customerId == customer.id && q.month == months && q.amount == amount && q.createdAt == now
      && q.invoiceType == P.InvoiceTypeFromName(kind).value
      && (r.err.Some? ==> q.status == P.New && q.cryptoInvoiceId.None? && q.cryptoInvoiceUrl.None? && q.yookasaId.None? && q.yookasaUrl.None?)
      && (r.err.None? ==> q.status == P.Pending)
      && (q.invoiceType == P.Telegram ==> r.err.None?)
      && (q.invoiceType != P.Crypto ==> q.cryptoInvoiceId.None? && q.cryptoInvoiceUrl.None?)
      && (q.invoiceType != P.Yookasa ==> q.yookasaId.None? && q.yookasaUrl.None?)
      && (q.invoiceType == P.Crypto && r.err.None? ==>
            q.cryptoInvoiceId == answers.crypto.value.invoiceId && q.cryptoInvoiceUrl == Some(answers.crypto.value.botInvoiceUrl)
            && r.url == answers.crypto.value.botInvoiceUrl)
      && (q.invoiceType == P.Yookasa && r.err.None? ==>
            var pay := Yookasa.CreatePayment(answers.yookasa).value;
            q.yookasaId == Some(pay.id) && q.yookasaUrl == Some(pay.confirmation.confirmationUrl)
            && r.url == pay.confirmation.confirmationUrl)
  {
    var t := P.InvoiceTypeFromName(kind);
    if t == Some(P.Crypto) {
      CryptoRow(w, amount, months, customer, now, conf.botUrl, answers.crypto);
    } else if t == Some(P.Yookasa) {
      YookasaRow(w, amount, months, customer, now, conf, answers);
    } else if t == Some(P.Telegram) {
      StarsRow(w, amount, months, customer, now, answers.starsLink);
    }
  }

  /** After an insert that did not fail: one more row, the old ones untouched, the new one with the requested values. */
  predicate AddsRow(w: World, r: Linked, t: P.InvoiceType, amount: int, months: int, customer: C.Customer, now: int)
  {
    var id := |w.purchases| + 1;
    && |r.world.purchases| == id
    && r.world.purchases[..id - 1] == w.purchases
    && var q := r.world.purchases[id - 1];
    && q.id == id && q.customerId == customer.id && q.month == months && q.amount == amount && q.createdAt == now
    && q.invoiceType == t
  }

  lemma CryptoRow(w: World, amount: int, months: int, customer: C.Customer, now: int, botUrl: string,
                  answer: Result<CryptoPay.Invoice, Http.Failure>)
    requires P.WellKeyed(w.purchases)
    ensures var r := CreateCrypto(w, amount, months, customer, now, botUrl, false, answer);
      && AddsRow(w, r, P.Crypto, amount, months, customer, now)
      && var q := r.world.purchases[|w.purchases|];
      && q.yookasaId.None? && q.yookasaUrl.None?
      && (answer.Err? ==> r.err.Some? && q.status == P.New && q.cryptoInvoiceId.None? && q.cryptoInvoiceUrl.None?)
      && (answer.Ok? ==> r.err.None? && q.status == P.Pending && r.url == answer.value.botInvoiceUrl
                         && q.cryptoInvoiceId == answer.value.invoiceId && q.cryptoInvoiceUrl == Some(answer.value.botInvoiceUrl))
  {
    var row := P.Inserted(NewRow(P.Crypto, "RUB", amount, customer.id, months), |w.purchases| + 1, now);
    if answer.Ok? {
      var inv := answer.value;
      P.UpdatedLastRow(w.purchases, row, CryptoUpdates(inv));
      ApplyThree(row, P.SetCryptoInvoiceUrl(inv.botInvoiceUrl), P.SetCryptoInvoiceId(inv.invoiceId), P.SetStatus(P.Pending));
    } else {
      P.UpdatedLastRow(w.purchases, row, []);
    }
  }

  lemma YookasaRow(w: World, amount: int, months: int, customer: C.Customer, now: int, conf: Settings.Config, answers: GatewayAnswers)
    requires P.WellKeyed(w.purchases)
    ensures var r := CreateYookasa(w, amount, months, customer, now, conf, false, answers);
      var created := Yookasa.CreatePayment(answers.yookasa);
      && AddsRow(w, r, P.Yookasa, amount, months, customer, now)
      && var q := r.world.purchases[|w.purchases|];
      && q.cryptoInvoiceId.None? && q.cryptoInvoiceUrl.None?
      && (created.Err? ==> r.err.Some? && q.status == P.New && q.yookasaId.None? && q.yookasaUrl.None?)
      && (created.Ok? ==> r.err.None? && q.status == P.Pending && r.url == created.value.confirmation.confirmationUrl
                          && q.yookasaId == Some(created.value.id) && q.yookasaUrl == Some(created.value.confirmation.confirmationUrl))
  {
    var row := P.Inserted(NewRow(P.Yookasa, "RUB", amount, customer.id, months), |w.purchases| + 1, now);
    var call := Yookasa.CreateInvoice(amount, months, customer.id, |w.purchases| + 1, answers.username, conf.yookasaEmail, conf.botUrl,
                                      answers.idempotenceKey, answers.yookasa);
    if call.result.Ok? {
      var pay := call.result.value;
      assert pay == Yookasa.CreatePayment(answers.yookasa).value;
      P.UpdatedLastRow(w.purchases, row, YookasaUpdates(pay));
      ApplyThree(row, P.SetYookasaUrl(pay.confirmation.confirmationUrl), P.SetYookasaId(pay.id), P.SetStatus(P.Pending));
    } else {
      P.UpdatedLastRow(w.purchases, row, []);
    }
  }

  lemma StarsRow(w: World, amount: int, months: int, customer: C.Customer, now: int, link: Option<string>)
    requires P.WellKeyed(w.purchases)
    ensures var r := CreateStars(w, amount, months, customer, now, false, link);
      && AddsRow(w, r, P.Telegram, amount, months, customer, now)
      && var q := r.world.purchases[|w.purchases|];
      && r.err.None? && q.status == P.Pending
      && q.cryptoInvoiceId.None? && q.cryptoInvoiceUrl.None? && q.yookasaId.None? && q.yookasaUrl.None?
  {
    var row := P.Inserted(NewRow(P.Telegram, "STARS", amount, customer.id, months), |w.purchases| + 1, now);
    P.UpdatedLastRow(w.purchases, row, [P.SetStatus(P.Pending)]);
    ApplyOne(row, P.SetStatus(P.Pending));
  }

  /** A failed insert: crypto and YooKassa report it, the Telegram path swallows it; nothing is written either way. */
  lemma CreateInsertFault(w: World, kind: string, amount: int, months: int, customer: C.Customer, now: int,
                                  conf: Settings.Config, answers: GatewayAnswers)
    requires P.InvoiceTypeFromName(kind).Some?
    ensures var r := Create(w, kind, amount, months, customer, now, conf, true, answers);
      && r.world == w && r.url == ""
      && (r.err.None? <==> kind == "telegram")
  {
  }

  /** The crypto invoice's payload is `purchaseId=<id>` for the new row's id, and nothing else. */
  lemma CryptoPayloadNamesPurchase(w: World, amount: int, months: int, customer: C.Customer, now: int, botUrl: string,
                                   answer: Result<CryptoPay.Invoice, Http.Failure>)
    ensures var r := CreateCrypto(w, amount, months, customer, now, botUrl, false, answer);
      && |r.world.invoices| == |w.invoices| + 1
      && r.world.invoices[|w.invoices|] == CryptoInvoice(CryptoRequest(amount, months, |w.purchases| + 1, botUrl))
      && r.world.invoices[|w.invoices|].crypto.payload == "purchaseId=" + Text.IntToString(|w.purchases| + 1)
  {
  }

  /** CancelPayment. */
  function Cancel(w: World, purchaseId: int): Done
  {
    if P.Find(w.purchases, purchaseId).None? then Done(w, Some(PurchaseNotFound(purchaseId)))
    else Done(w.(purchases := P.Updated(w.purchases, purchaseId, [P.SetStatus(P.Cancel)])), None)
  }

  /** CancelPayment fails on a missing id and otherwise sets `cancel` whatever the status was, paid included; nothing else changes. */
  lemma CancelRules(w: World, purchaseId: int)
    requires P.WellKeyed(w.purchases)
    ensures P.Find(w.purchases, purchaseId).None? ==> Cancel(w, purchaseId) == Done(w, Some(PurchaseNotFound(purchaseId)))
    ensures P.Find(w.purchases, purchaseId).Some? ==>
      var r := Cancel(w, purchaseId);
      && r.err.None?
      && P.Find(r.world.purchases, purchaseId) == Some(P.Find(w.purchases, purchaseId).value.(status := P.Cancel))
      && (forall id :: id != purchaseId ==> P.Find(r.world.purchases, id) == P.Find(w.purchases, id))
      && r.world.(purchases := w.purchases) == w
  {
    if P.Find(w.purchases, purchaseId).Some? {
      P.UpdatedFrame(w.purchases, purchaseId, [P.SetStatus(P.Cancel)]);
      ApplyOne(w.purchases[purchaseId - 1], P.SetStatus(P.Cancel));
    }
  }

  /** ActivateTrial. */
  function Trial(w: World, telegramId: int, trafficLimit: int, days: int,
                 answer: Result<Remnawave.User, Remnawave.ClientError>): Linked
  {
    match C.FindTelegram(w.customers, telegramId)
    case None => Linked(w, "", Some(TelegramCustomerNotFound(telegramId)))
    case Some(c) =>
      var w1 := w.(provisioning := w.provisioning + [ProvisionCall(c.id, telegramId, trafficLimit, days)]);
      match answer
      case Err(e) => Linked(w1, "", Some(ProvisionFailed(e)))
      case Ok(user) => Linked(w1.(customers := C.Updated(w.customers, c.id, SubscriptionUpdates(user))), user.subscriptionUrl, None)
  }

  /**
   * ActivateTrial provisions the configured trial for the customer with that
   * Telegram id, records the link and expiry on the customer, hands back the
   * link, and never touches the purchase table.
   */
  lemma TrialRules(w: World, telegramId: int, trafficLimit: int, days: int, answer: Result<Remnawave.User, Remnawave.ClientError>)
    requires C.WellKeyed(w.customers)
    ensures var r := Trial(w, telegramId, trafficLimit, days, answer);
      && r.world.purchases == w.purchases && r.world.invoices == w.invoices && r.world.messages == w.messages
      && (C.FindTelegram(w.customers, telegramId).None? ==> r.world == w && r.err == Some(TelegramCustomerNotFound(telegramId)))
      && (C.FindTelegram(w.customers, telegramId).Some? ==>
            var c := C.FindTelegram(w.customers, telegramId).value;
            && r.world.provisioning == w.provisioning + [ProvisionCall(c.id, telegramId, trafficLimit, days)]
            && C.Find(w.customers, c.id).Some? && C.Find(w.customers, c.id).value.telegramId == telegramId
            && (answer.Ok? ==>
                  && r.url == answer.value.subscriptionUrl && r.err.None?
                  && C.Find(r.world.customers, c.id)
                     == Some(C.Find(w.customers, c.id).value.(subscriptionLink := Some(answer.value.subscriptionUrl),
                                                              expireAt := Some(answer.value.expireAt)))
                  && (forall id :: id != c.id ==> C.Find(r.world.customers, id) == C.Find(w.customers, id)))
            && (answer.Err? ==> r.world.customers == w.customers && r.err == Some(ProvisionFailed(answer.error))))
  {
    C.FindTelegramMatches(w.customers, telegramId);
    if C.FindTelegram(w.customers, telegramId).Some? {
      var c := C.FindTelegram(w.customers, telegramId).value;
      var d :| d in w.customers && d.telegramId == telegramId && c == d.(language := "");
      C.FindMeansRowWithId(w.customers, d.id, d);
      if answer.Ok? {
        C.UpdatedFrame(w.customers, c.id, SubscriptionUpdates(answer.value));
        C.ApplyPair(d, C.SetSubscriptionLink(answer.value.subscriptionUrl), C.SetExpireAt(answer.value.expireAt));
      }
    }
  }

  /** Every operation keeps the correlation fields coherent. */
  lemma OperationsKeepCoherence(w: World, purchaseId: int, now: int, trafficLimit: int,
                                answer: Result<Remnawave.User, Remnawave.ClientError>, sendFails: bool,
                                kind: string, amount: int, months: int, customer: C.Customer,
                                conf: Settings.Config, insertFault: bool, answers: GatewayAnswers, telegramId: int, days: int)
    requires P.WellKeyed(w.purchases) && Consistent(w.purchases)
    ensures Consistent(Process(w, purchaseId, now, trafficLimit, answer, sendFails).world.purchases)
    ensures Consistent(Create(w, kind, amount, months, customer, now, conf, insertFault, answers).world.purchases)
    ensures Consistent(Cancel(w, purchaseId).world.purchases)
    ensures Consistent(Trial(w, telegramId, trafficLimit, days, answer).world.purchases)
  {
    StatusChangesKeepCoherence(w, purchaseId, now, trafficLimit, answer, sendFails);
    CreateKeepsCoherence(w, kind, amount, months, customer, now, conf, insertFault, answers);
  }

  /** Marking a purchase paid or cancelled leaves its correlation fields as they were. */
  lemma StatusChangesKeepCoherence(w: World, purchaseId: int, now: int, trafficLimit: int,
                                   answer: Result<Remnawave.User, Remnawave.ClientError>, sendFails: bool)
    requires P.WellKeyed(w.purchases) && Consistent(w.purchases)
    ensures Consistent(Process(w, purchaseId, now, trafficLimit, answer, sendFails).world.purchases)
    ensures Consistent(Cancel(w, purchaseId).world.purchases)
  {
    if P.Find(w.purchases, purchaseId).Some? {
      var p := w.purchases[purchaseId - 1];
      P.UpdatedFrame(w.purchases, purchaseId, [P.SetStatus(P.Paid), P.SetPaidAt(now)]);
      P.MarkedPaidRow(p, now, now);
      P.UpdatedFrame(w.purchases, purchaseId, [P.SetStatus(P.Cancel)]);
      ApplyOne(p, P.SetStatus(P.Cancel));
    }
  }

  /** A new purchase is stored with coherent correlation fields, after rows that are left alone. */
  lemma CreateKeepsCoherence(w: World, kind: string, amount: int, months: int, customer: C.Customer, now: int,
                             conf: Settings.Config, insertFault: bool, answers: GatewayAnswers)
    requires P.WellKeyed(w.purchases) && Consistent(w.purchases)
    ensures Consistent(Create(w, kind, amount, months, customer, now, conf, insertFault, answers).world.purchases)
  {
    if !insertFault && P.InvoiceTypeFromName(kind).Some? {
      CreateRules(w, kind, amount, months, customer, now, conf, answers);
      var r := Create(w, kind, amount, months, customer, now, conf, insertFault, answers);
      var id := |w.purchases| + 1;
      assert forall i :: 0 <= i < id - 1 ==> r.world.purchases[i] == w.purchases[i];
    }
  }

  class PaymentService {
    const purchases: P.PurchaseRepository
    const customers: C.CustomerRepository
    const settings: Settings.Settings
    var provisioning: seq<ProvisionCall>
    var invoices: seq<GatewayCall>
    var messages: seq<Message>

    ghost predicate Valid()
      reads this, purchases, customers
    {
      purchases.Valid() && customers.Valid() && Consistent(purchases.rows)
    }

    function Snapshot(): World
      reads this, purchases, customers
    {
      World(purchases.rows, customers.rows, provisioning, invoices, messages)
    }

    constructor (purchases: P.PurchaseRepository, customers: C.CustomerRepository, settings: Settings.Settings)
      requires purchases.Valid() && customers.Valid() && Consistent(purchases.rows)
      ensures Valid()
      ensures this.purchases == purchases && this.customers == customers && this.settings == settings
      ensures provisioning == [] && invoices == [] && messages == []
    {
      this.purchases := purchases;
      this.customers := customers;
      this.settings := settings;
      provisioning := [];
      invoices := [];
      messages := [];
    }

    /** ProcessPurchaseById; `answer` is the panel's CreateOrUpdateUser result and `sendFails` the fate of the message. */
    method ProcessPurchaseById(purchaseId: int, now: int, answer: Result<Remnawave.User, Remnawave.ClientError>, sendFails: bool)
      returns (err: Option<PaymentError>)
      requires Valid()
      modifies this, purchases, customers
      ensures Valid()
      ensures Done(Snapshot(), err) == Process(old(Snapshot()), purchaseId, now, Settings.TrafficLimit(settings.conf), answer, sendFails)
    {
      ghost var w := Snapshot();
      OperationsKeepCoherence(w, purchaseId, now, Settings.TrafficLimit(settings.conf), answer, sendFails,
                              "", 0, 0, C.Customer(0, 0, None, 0, None, ""), settings.conf, true,
                              GatewayAnswers(Err(Http.DecodeFailure), Http.Response(0, None), "", Yookasa.MetaNil, None), 0, 0);
      var purchase := purchases.FindById(purchaseId);
      if purchase.None? {
        return Some(PurchaseNotFound(purchaseId));
      }
      var p := purchase.value;
      var customer := customers.FindById(p.customerId);
      if customer.None? {
        return Some(CustomerNotFound(p.customerId));
      }
      var c := customer.value;
      provisioning := provisioning + [ProvisionCall(c.id, c.telegramId, Settings.TrafficLimit(settings.conf), p.month * 30)];
      if answer.Err? {
        return Some(ProvisionFailed(answer.error));
      }
      var user := answer.value;
      var failed := purchases.UpdateFields(p.id, [P.SetStatus(P.Paid), P.SetPaidAt(now)]);
      assert !failed;
      failed := customers.UpdateFields(c.id, SubscriptionUpdates(user));
      assert !failed;
      if sendFails {
        return Some(SendFailed);
      }
      messages := messages + [Message(c.telegramId, c.language, "subscription_activated", "connect_button", user.subscriptionUrl)];
      err := None;
    }

    /** CreatePurchase and its three create*Invoice paths. */
    method CreatePurchase(kind: string, amount: int, months: int, customer: C.Customer, now: int,
                          insertFault: bool, answers: GatewayAnswers)
      returns (url: string, err: Option<PaymentError>)
      requires Valid()
      modifies this, purchases
      ensures Valid()
      ensures Linked(Snapshot(), url, err) == Create(old(Snapshot()), kind, amount, months, customer, now, settings.conf, insertFault, answers)
    {
      var t := P.InvoiceTypeFromName(kind);
      if t.None? {
        return "", Some(UnknownInvoiceType(kind));
      }
      if t.value == P.Crypto {
        url, err := CreateCryptoInvoice(amount, months, customer, now, insertFault, answers.crypto);
      } else if t.value == P.Yookasa {
        url, err := CreateYookasaInvoice(amount, months, customer, now, insertFault, answers);
      } else {
        url, err := CreateTelegramInvoice(amount, months, customer, now, insertFault, answers.starsLink);
      }
    }

    method CreateCryptoInvoice(amount: int, months: int, customer: C.Customer, now: int,
                               insertFault: bool, answer: Result<CryptoPay.Invoice, Http.Failure>)
      returns (url: string, err: Option<PaymentError>)
      requires Valid()
      modifies this, purchases
      ensures Valid()
      ensures Linked(Snapshot(), url, err) == CreateCrypto(old(Snapshot()), amount, months, customer, now, settings.conf.botUrl, insertFault, answer)
    {
      ghost var w := Snapshot();
      OperationsKeepCoherence(w, 0, now, 0, Err(Remnawave.Panicked("")), false, "crypto", amount, months, customer, settings.conf,
                              insertFault, GatewayAnswers(answer, Http.Response(0, None), "", Yookasa.MetaNil, None), 0, 0);
      var id, failed := purchases.Create(NewRow(P.Crypto, "RUB", amount, customer.id, months), now, insertFault);
      if failed {
        return "", Some(StoreFailed);
      }
      invoices := invoices + [CryptoInvoice(CryptoRequest(amount, months, id, settings.conf.botUrl))];
      if answer.Err? {
        return "", Some(GatewayFailed(answer.error));
      }
      var invoice := answer.value;
      failed := purchases.UpdateFields(id, CryptoUpdates(invoice));
      url, err := invoice.botInvoiceUrl, None;
    }

    method CreateYookasaInvoice(amount: int, months: int, customer: C.Customer, now: int,
                                insertFault: bool, answers: GatewayAnswers)
      returns (url: string, err: Option<PaymentError>)
      requires Valid()
      modifies this, purchases
      ensures Valid()
      ensures Linked(Snapshot(), url, err) == CreateYookasa(old(Snapshot()), amount, months, customer, now, settings.conf, insertFault, answers)
    {
      ghost var w := Snapshot();
      OperationsKeepCoherence(w, 0, now, 0, Err(Remnawave.Panicked("")), false, "yookasa", amount, months, customer, settings.conf,
                              insertFault, answers, 0, 0);
      var id, failed := purchases.Create(NewRow(P.Yookasa, "RUB", amount, customer.id, months), now, insertFault);
      if failed {
        return "", Some(StoreFailed);
      }
      var call := Yookasa.CreateInvoice(amount, months, customer.id, id, answers.username, settings.conf.yookasaEmail,
                                        settings.conf.botUrl, answers.idempotenceKey, answers.yookasa);
      invoices := invoices + [YookasaInvoice(call.request, call.idempotenceKey)];
      if call.result.Err? {
        return "", Some(GatewayFailed(call.result.error));
      }
      var payment := call.result.value;
      failed := purchases.UpdateFields(id, YookasaUpdates(payment));
      url, err := payment.confirmation.confirmationUrl, None;
    }

    method CreateTelegramInvoice(amount: int, months: int, customer: C.Customer, now: int,
                                 insertFault: bool, link: Option<string>)
      returns (url: string, err: Option<PaymentError>)
      requires Valid()
      modifies this, purchases
      ensures Valid()
      ensures Linked(Snapshot(), url, err) == CreateStars(old(Snapshot()), amount, months, customer, now, insertFault, link)
    {
      ghost var w := Snapshot();
      OperationsKeepCoherence(w, 0, now, 0, Err(Remnawave.Panicked("")), false, "telegram", amount, months, customer, settings.conf,
                              insertFault, GatewayAnswers(Err(Http.DecodeFailure), Http.Response(0, None), "", Yookasa.MetaNil, link), 0, 0);
      var id, failed := purchases.Create(NewRow(P.Telegram, "STARS", amount, customer.id, months), now, insertFault);
      if failed {
        return "", None;
      }
      invoices := invoices + [StarsInvoice(Text.IntToString(id), amount, customer.language)];
      var invoiceUrl := if link.Some? then link.value else "";
      failed := purchases.UpdateFields(id, [P.SetStatus(P.Pending)]);
      url, err := invoiceUrl, None;
    }

    method ActivateTrial(telegramId: int, answer: Result<Remnawave.User, Remnawave.ClientError>)
      returns (url: string, err: Option<PaymentError>)
      requires Valid()
      modifies this, customers
      ensures Valid()
      ensures Linked(Snapshot(), url, err) ==
        Trial(old(Snapshot()), telegramId, Settings.TrialTrafficLimit(settings.conf), settings.conf.trialDays, answer)
    {
      var customer := customers.FindByTelegramId(telegramId);
      if customer.None? {
        return "", Some(TelegramCustomerNotFound(telegramId));
      }
      var c := customer.value;
      C.FindTelegramMatches(customers.rows, telegramId);
      provisioning := provisioning + [ProvisionCall(c.id, telegramId, Settings.TrialTrafficLimit(settings.conf), settings.conf.trialDays)];
      if answer.Err? {
        return "", Some(ProvisionFailed(answer.error));
      }
      var user := answer.value;
      var failed := customers.UpdateFields(c.id, SubscriptionUpdates(user));
      url, err := user.subscriptionUrl, None;
    }

    method CancelPayment(purchaseId: int) returns (err: Option<PaymentError>)
      requires Valid()
      modifies purchases
      ensures Valid()
      ensures Done(Snapshot(), err) == Cancel(old(Snapshot()), purchaseId)
    {
      ghost var w := Snapshot();
      OperationsKeepCoherence(w, purchaseId, 0, 0, Err(Remnawave.Panicked("")), false, "", 0, 0, C.Customer(0, 0, None, 0, None, ""),
                              settings.conf, true, GatewayAnswers(Err(Http.DecodeFailure), Http.Response(0, None), "", Yookasa.MetaNil, None), 0, 0);
      var purchase := purchases.FindById(purchaseId);
      if purchase.None? {
        return Some(PurchaseNotFound(purchaseId));
      }
      var failed := purchases.UpdateFields(purchaseId, [P.SetStatus(P.Cancel)]);
      err := None;
    }
  }
}

/**
 * The reconciliation drivers and start-up filters of the bot's entry point
 * (cmd/app/main.go): the admin gate, the invoice-checker schedule, the two
 * pollers that settle pending gateway invoices through the payment service,
 * and the country list built from the panel's nodes.
 *
 * The pollers run one pass each. The gateways' answers are inputs, and so are
 * the panel's answers and the fate of the Telegram message for every purchase
 * the pass processes (indexed by the position of the action in the pass).
 */
module App {
  import opened Wrappers
  import Text
  import Http
  import P = Purchases
  import Settings
  import Remnawave
  import Yookasa
  import CryptoPay
  import Payment

  /** isAdminMiddleware: the wrapped handler runs only for a message sent by the configured admin. */
  function AdminGate(senderId: Option<int>, conf: Settings.Config): (runs: bool)
    ensures runs ==> senderId.Some?
    ensures runs <==> senderId == Some(conf.adminTelegramId)
  {
    match senderId
    case None => false
    case Some(id) => id == conf.adminTelegramId
  }

  datatype Check = CheckCryptoPay | CheckYookasa

  /** A cron entry: its six-field schedule and the poller it runs. */
  datatype Job = Job(schedule: string, check: Check)

  /** setupInvoiceChecker: no scheduler at all, or a scheduler with its jobs. */
  datatype Scheduler = NoScheduler | Scheduler(jobs: seq<Job>)

  const EveryFiveSeconds: string := "*/5 * * * * *"

  function InvoiceChecker(conf: Settings.Config): Scheduler
  {
    if !conf.isYookasaEnabled && !conf.isCryptoEnabled then NoScheduler
    else
      Scheduler((if conf.isCryptoEnabled then [Job(EveryFiveSeconds, CheckCryptoPay)] else [])
                + (if conf.isYookasaEnabled then [Job(EveryFiveSeconds, CheckYookasa)] else []))
  }

  /**
   * There is a scheduler exactly when a polled gateway is enabled; it runs
   * each enabled gateway's poller once, every five seconds, crypto first.
   */
  lemma InvoiceCheckerJobs(conf: Settings.Config)
    ensures InvoiceChecker(conf).NoScheduler? <==> !conf.isYookasaEnabled && !conf.isCryptoEnabled
    ensures InvoiceChecker(conf).Scheduler? ==>
      var jobs := InvoiceChecker(conf).jobs;
      && (forall k :: 0 <= k < |jobs| ==> jobs[k].schedule == EveryFiveSeconds)
      && (Job(EveryFiveSeconds, CheckCryptoPay) in jobs <==> conf.isCryptoEnabled)
      && (Job(EveryFiveSeconds, CheckYookasa) in jobs <==> conf.isYookasaEnabled)
      && |jobs| == (if conf.isCryptoEnabled then 1 else 0) + (if conf.isYookasaEnabled then 1 else 0)
      && (conf.isCryptoEnabled ==> jobs[0].check == CheckCryptoPay)
  {
  }

  /** What a poller does with one pending purchase or paid invoice. */
  datatype Action = Skip | CancelPurchase(purchaseId: int) | ProcessPurchase(purchaseId: int)

  /** One action, carried out by the payment service on the world. */
  function Step(w: Payment.World, a: Action, now: int, trafficLimit: int,
                answer: Result<Remnawave.User, Remnawave.ClientError>, sendFails: bool): Payment.World
  {
    match a
    case Skip => w
    case CancelPurchase(id) => Payment.Cancel(w, id).world
    case ProcessPurchase(id) => Payment.Process(w, id, now, trafficLimit, answer, sendFails).world
  }

  /** A pass's actions in order; the k-th action sees the k-th panel answer and message fate. */
  function Run(w: Payment.World, actions: seq<Action>, now: int, trafficLimit: int,
               answers: nat -> Result<Remnawave.User, Remnawave.ClientError>, sendFails: nat -> bool): Payment.World
    decreases |actions|
  {
    if actions == [] then w
    else
      var n := |actions| - 1;
      Step(Run(w, actions[..n], now, trafficLimit, answers, sendFails), actions[n], now, trafficLimit, answers(n), sendFails(n))
  }

  /** A pass whose actions are all skips leaves the world as it was. */
  lemma {:induction false} SkipsChangeNothing(w: Payment.World, actions: seq<Action>, now: int, trafficLimit: int,
                                              answers: nat -> Result<Remnawave.User, Remnawave.ClientError>, sendFails: nat -> bool)
    requires forall k :: 0 <= k < |actions| ==> actions[k] == Skip
    ensures Run(w, actions, now, trafficLimit, answers, sendFails) == w
    decreases |actions|
  {
    if actions != [] {
      SkipsChangeNothing(w, actions[..|actions| - 1], now, trafficLimit, answers, sendFails);
    }
  }

  lemma RunAppend(w: Payment.World, actions: seq<Action>, a: Action, now: int, trafficLimit: int,
                  answers: nat -> Result<Remnawave.User, Remnawave.ClientError>, sendFails: nat -> bool)
    ensures Run(w, actions + [a], now, trafficLimit, answers, sendFails)
         == Step(Run(w, actions, now, trafficLimit, answers, sendFails), a, now, trafficLimit, answers(|actions|), sendFails(|actions|))
  {
    assert (actions + [a])[..|actions|] == actions;
  }

  // ---------------------------------------------------------------- YooKassa

  predicate HaveYookasaIds(pending: seq<P.Purchase>)
  {
    forall k :: 0 <= k < |pending| ==> pending[k].yookasaId.Some?
  }

  /** Every pending YooKassa purchase of a coherent table knows its payment id, so the poller can ask for it. */
  lemma PendingYookasaHaveIds(rows: seq<P.Purchase>)
    requires Payment.Consistent(rows)
    ensures HaveYookasaIds(P.Select(rows, P.Yookasa, P.Pending))
  {
    P.SelectExact(rows, P.Yookasa, P.Pending);
    forall k | 0 <= k < |P.Select(rows, P.Yookasa, P.Pending)|
      ensures P.Select(rows, P.Yookasa, P.Pending)[k].yookasaId.Some?
    {
      var p := P.Select(rows, P.Yookasa, P.Pending)[k];
      assert p in rows;
      var i :| 0 <= i < |rows| && rows[i] == p;
      assert Payment.Coherent(rows[i]);
    }
  }

  /** `invoice.Metadata[key]`: the empty text when the key is missing. */
  function Metadata(m: map<string, string>, key: string): string
  {
    if key in m then m[key] else ""
  }

  /** The decision for one pending purchase, given what GetPayment returned for its payment. */
  function YookasaAction(p: P.Purchase, result: Result<Yookasa.Payment, Http.Failure>): Action
  {
    if result.Err? then Skip
    else if Yookasa.IsCancelled(result.value) then CancelPurchase(p.id)
    else if !result.value.paid then Skip
    else ProcessPurchase(Text.AtoiOrZero(Metadata(result.value.metadata, "purchaseId")))
  }

  /** GetPayment's result for a purchase, when `replies(id)` answers the requests about payment `id`. */
  function Fetched(p: P.Purchase, replies: string -> nat -> Http.Reply<Yookasa.Payment>): Result<Yookasa.Payment, Http.Failure>
    requires p.yookasaId.Some?
  {
    Yookasa.FetchFrom(0, replies(p.yookasaId.value)).result
  }

  /** checkYookasaInvoice's decisions, one per pending purchase, in order. */
  function YookasaActions(pending: seq<P.Purchase>, replies: string -> nat -> Http.Reply<Yookasa.Payment>): (actions: seq<Action>)
    requires HaveYookasaIds(pending)
    ensures |actions| == |pending|
    decreases |pending|
  {
    if pending == [] then []
    else
      var n := |pending| - 1;
      YookasaActions(pending[..n], replies) + [YookasaAction(pending[n], Fetched(pending[n], replies))]
  }

  /**
   * The YooKassa poller decides on each pending purchase by its own payment
   * alone: a failed fetch or an unpaid payment is skipped, a canceled payment
   * cancels that purchase and is not processed, and a paid one is processed
   * under the purchase id its metadata names (0 when that text is not a number).
   */
  lemma {:induction false} YookasaDecisions(pending: seq<P.Purchase>, replies: string -> nat -> Http.Reply<Yookasa.Payment>)
    requires HaveYookasaIds(pending)
    ensures var actions := YookasaActions(pending, replies);
      forall k :: 0 <= k < |pending| ==>
        var r := Fetched(pending[k], replies);
        && (r.Err? ==> actions[k] == Skip)
        && (r.Ok? && Yookasa.IsCancelled(r.value) ==> actions[k] == CancelPurchase(pending[k].id))
        && (r.Ok? && !Yookasa.IsCancelled(r.value) && !r.value.paid ==> actions[k] == Skip)
        && (r.Ok? && !Yookasa.IsCancelled(r.value) && r.value.paid ==>
              actions[k] == ProcessPurchase(Text.AtoiOrZero(Metadata(r.value.metadata, "purchaseId"))))
        && (actions[k].ProcessPurchase? ==>
              && r.Ok? && r.value.paid && !Yookasa.IsCancelled(r.value)
              && actions[k].purchaseId == Text.AtoiOrZero(Metadata(r.value.metadata, "purchaseId")))
    decreases |pending|
  {
    if pending != [] {
      var n := |pending| - 1;
      YookasaDecisions(pending[..n], replies);
      assert forall k :: 0 <= k < n ==> pending[..n][k] == pending[k];
    }
  }

  /** A paid payment whose metadata carries the decimal purchase id, as CreateInvoice wrote it, is processed under that id. */
  lemma PaidPaymentNamesPurchase(p: P.Purchase, payment: Yookasa.Payment, purchaseId: int)
    requires payment.paid && !Yookasa.IsCancelled(payment)
    requires "purchaseId" in payment.metadata && payment.metadata["purchaseId"] == Text.IntToString(purchaseId)
    ensures YookasaAction(p, Ok(payment)) == ProcessPurchase(purchaseId)
  {
    Text.ParseIntRoundTrip(purchaseId);
  }

  /** The body of checkYookasaInvoice's loop for one purchase, once its payment is fetched. */
  method ActOnPayment(service: Payment.PaymentService, purchase: P.Purchase, result: Result<Yookasa.Payment, Http.Failure>, now: int,
                      answer: Result<Remnawave.User, Remnawave.ClientError>, sendFails: bool)
    returns (action: Action)
    requires service.Valid()
    modifies service, service.purchases, service.customers
    ensures service.Valid()
    ensures action == YookasaAction(purchase, result)
    ensures service.Snapshot() == Step(old(service.Snapshot()), action, now, Settings.TrafficLimit(service.settings.conf), answer, sendFails)
  {
    if result.Err? {
      return Skip;
    } else if Yookasa.IsCancelled(result.value) {
      var err := service.CancelPayment(purchase.id);
      return CancelPurchase(purchase.id);
    } else if !result.value.paid {
      return Skip;
    } else {
      var purchaseId := Text.AtoiOrZero(Metadata(result.value.metadata, "purchaseId"));
      var err := service.ProcessPurchaseById(purchaseId, now, answer, sendFails);
      return ProcessPurchase(purchaseId);
    }
  }

  /** checkYookasaInvoice, one pass. */
  method CheckYookasaInvoice(service: Payment.PaymentService, now: int, replies: string -> nat -> Http.Reply<Yookasa.Payment>,
                             answers: nat -> Result<Remnawave.User, Remnawave.ClientError>, sendFails: nat -> bool)
    returns (actions: seq<Action>)
    requires service.Valid()
    modifies service, service.purchases, service.customers
    ensures service.Valid()
    ensures var pending := P.Select(old(service.purchases.rows), P.Yookasa, P.Pending);
      HaveYookasaIds(pending) && actions == YookasaActions(pending, replies)
    ensures service.Snapshot() == Run(old(service.Snapshot()), actions, now, Settings.TrafficLimit(service.settings.conf), answers, sendFails)
  {
    ghost var w0 := service.Snapshot();
    var pending := service.purchases.FindByInvoiceTypeAndStatus(P.Yookasa, P.Pending);
    PendingYookasaHaveIds(service.purchases.rows);
    actions := [];
    if |pending| == 0 {
      return;
    }
    var trafficLimit := Settings.TrafficLimit(service.settings.conf);
    var k := 0;
    while k < |pending|
      invariant 0 <= k <= |pending|
      invariant service.Valid()
      invariant trafficLimit == Settings.TrafficLimit(service.settings.conf)
      invariant actions == YookasaActions(pending[..k], replies)
      invariant service.Snapshot() == Run(w0, actions, now, trafficLimit, answers, sendFails)
    {
      assert pending[..k + 1][..k] == pending[..k];
      var purchase := pending[k];
      var fetched := Yookasa.GetPayment(replies(purchase.yookasaId.value));
      assert fetched.result == Fetched(pending[k], replies);
      assert YookasaActions(pending[..k + 1], replies) == actions + [YookasaAction(purchase, fetched.result)];
      RunAppend(w0, actions, YookasaAction(purchase, fetched.result), now, trafficLimit, answers, sendFails);
      var action := ActOnPayment(service, purchase, fetched.result, now, answers(|actions|), sendFails(|actions|));
      actions := actions + [action];
      k := k + 1;
    }
    assert pending[..k] == pending;
  }

  // ---------------------------------------------------------------- Crypto Pay

  /** The invoice ids of the pending crypto purchases that have one, as decimal text, in order. */
  function InvoiceIds(pending: seq<P.Purchase>): (ids: seq<string>)
    ensures |ids| <= |pending|
    decreases |pending|
  {
    if pending == [] then []
    else
      var n := |pending| - 1;
      var p := pending[n];
      InvoiceIds(pending[..n]) + (if p.cryptoInvoiceId.Some? then [Text.IntToString(p.cryptoInvoiceId.value)] else [])
  }

  /** The ids listed are exactly those of the purchases that have one; none of them contains a comma. */
  lemma {:induction false} InvoiceIdsExact(pending: seq<P.Purchase>)
    ensures forall s :: s in InvoiceIds(pending) <==> exists p :: p in pending && p.cryptoInvoiceId.Some? && s == Text.IntToString(p.cryptoInvoiceId.value)
    ensures forall k :: 0 <= k < |InvoiceIds(pending)| ==> ',' !in InvoiceIds(pending)[k]
    ensures InvoiceIds(pending) == [] <==> forall p :: p in pending ==> p.cryptoInvoiceId.None?
    decreases |pending|
  {
    if pending != [] {
      var n := |pending| - 1;
      InvoiceIdsExact(pending[..n]);
      assert pending == pending[..n] + [pending[n]];
      var p := pending[n];
      if p.cryptoInvoiceId.Some? {
        Text.IntToStringHasNo(p.cryptoInvoiceId.value, ',');
      }
    }
  }

  /** The gateway receives the ids one by one: splitting the query at commas gives back the list. */
  lemma QueryCarriesEveryId(pending: seq<P.Purchase>)
    requires InvoiceIds(pending) != []
    ensures Text.Split(Text.Join(InvoiceIds(pending), ','), ',') == InvoiceIds(pending)
  {
    InvoiceIdsExact(pending);
    Text.SplitJoin(InvoiceIds(pending), ',');
  }

  /** `strconv.Atoi(strings.Split(payload, "=")[1])`, ignoring the error; None where the index panics. */
  function PurchaseIdOf(payload: string): Option<int>
  {
    var pieces := Text.Split(payload, '=');
    if |pieces| < 2 then None else Some(Text.AtoiOrZero(pieces[1]))
  }

  /** The purchase id is read from the text between the first and the second `=` (or the end). */
  lemma PurchaseIdIsSecondPiece(a: string, b: string, rest: string)
    requires '=' !in a && '=' !in b
    requires rest == [] || rest[0] == '='
    ensures PurchaseIdOf(a + "=" + b + rest) == Some(Text.AtoiOrZero(b))
  {
    Text.SplitAfterPrefix(a, b + rest, '=');
    assert a + "=" + b + rest == a + ['='] + (b + rest);
    if rest == [] {
      Text.SplitWithoutSeparator(b, '=');
      assert b + rest == b;
    } else {
      Text.SplitAfterPrefix(b, rest[1..], '=');
      assert b + rest == b + ['='] + rest[1..];
    }
  }

  /** A payload without `=` makes the poller panic. */
  lemma PayloadWithoutSeparatorPanics(payload: string)
    requires '=' !in payload
    ensures PurchaseIdOf(payload) == None
  {
    Text.SplitWithoutSeparator(payload, '=');
  }

  /** The payload the payment service writes reads back as its purchase id. */
  lemma ServicePayloadRoundTrip(purchaseId: int)
    ensures PurchaseIdOf("purchaseId=" + Text.IntToString(purchaseId)) == Some(purchaseId)
  {
    Text.IntToStringHasNo(purchaseId, '=');
    PurchaseIdIsSecondPiece("purchaseId", Text.IntToString(purchaseId), "");
    assert "purchaseId" + "=" + Text.IntToString(purchaseId) + "" == "purchaseId=" + Text.IntToString(purchaseId);
    Text.ParseIntRoundTrip(purchaseId);
  }

  /**
   * The payload the crypto callback handler writes, `customerId=<c>&purchaseId=<n>`,
   * reads back as purchase 0: the second piece is `<c>&purchaseId`, not a number.
   */
  lemma HandlerPayloadReadsAsZero(customerId: int, purchaseId: int)
    ensures PurchaseIdOf("customerId=" + Text.IntToString(customerId) + "&purchaseId=" + Text.IntToString(purchaseId)) == Some(0)
  {
    var c := Text.IntToString(customerId);
    var b := c + "&purchaseId";
    Text.IntToStringHasNo(customerId, '=');
    assert '=' !in b;
    PurchaseIdIsSecondPiece("customerId", b, "=" + Text.IntToString(purchaseId));
    assert "customerId=" + c + "&purchaseId=" + Text.IntToString(purchaseId)
        == "customerId" + "=" + b + ("=" + Text.IntToString(purchaseId));
    Text.IntToStringHasNo(customerId, '&');
    assert b[|c|] == '&';
    Text.ParseIntRejects(b, |c|);
  }

  /** The paid invoices a pass acts on: those with an id and a status of exactly `paid`. */
  predicate Eligible(invoice: CryptoPay.Invoice)
  {
    invoice.invoiceId.Some? && CryptoPay.IsPaid(invoice)
  }

  /** The actions of a crypto pass and whether it ended in a panic. */
  datatype Sweep = Sweep(actions: seq<Action>, panicked: bool)

  /** checkCryptoPayInvoice's decisions over the invoices the gateway returned; a panic ends the pass. */
  function CryptoSweep(invoices: seq<CryptoPay.Invoice>): Sweep
    decreases |invoices|
  {
    if invoices == [] then Sweep([], false)
    else
      var n := |invoices| - 1;
      SweepStep(CryptoSweep(invoices[..n]), invoices[n])
  }

  /** One invoice of the pass: after a panic nothing happens; a paid invoice with an id processes its purchase. */
  function SweepStep(s: Sweep, invoice: CryptoPay.Invoice): Sweep
  {
    if s.panicked || !Eligible(invoice) then s
    else
      match PurchaseIdOf(invoice.payload)
      case None => Sweep(s.actions, true)
      case Some(id) => Sweep(s.actions + [ProcessPurchase(id)], false)
  }

  /**
   * The crypto poller never cancels: each action processes the purchase named
   * by an eligible invoice's payload, every eligible invoice of a pass that
   * does not panic has its purchase processed, and the pass panics exactly
   * when some eligible invoice's payload has no `=`.
   */
  lemma {:induction false} CryptoSweepRules(invoices: seq<CryptoPay.Invoice>)
    ensures var s := CryptoSweep(invoices);
      && (forall k :: 0 <= k < |s.actions| ==> s.actions[k].ProcessPurchase?)
      && (forall k :: 0 <= k < |s.actions| ==>
            exists j :: 0 <= j < |invoices| && Eligible(invoices[j]) && PurchaseIdOf(invoices[j].payload) == Some(s.actions[k].purchaseId))
      && (!s.panicked ==> forall j :: 0 <= j < |invoices| && Eligible(invoices[j]) ==>
            PurchaseIdOf(invoices[j].payload).Some? && ProcessPurchase(PurchaseIdOf(invoices[j].payload).value) in s.actions)
      && (s.panicked <==> exists j :: 0 <= j < |invoices| && Eligible(invoices[j]) && PurchaseIdOf(invoices[j].payload).None?)
      && (s.actions == [] && !s.panicked <== forall j :: 0 <= j < |invoices| ==> !Eligible(invoices[j]))
    decreases |invoices|
  {
    if invoices != [] {
      var n := |invoices| - 1;
      CryptoSweepRules(invoices[..n]);
      assert forall j :: 0 <= j < n ==> invoices[..n][j] == invoices[j];
    }
  }

  /**
   * The pass acts in invoice order: the actions taken for the first j invoices
   * begin the pass's actions, and when the pass does not panic an eligible
   * j-th invoice's purchase is processed right after them.
   */
  lemma {:induction false} SweepInInvoiceOrder(invoices: seq<CryptoPay.Invoice>, j: nat)
    requires j < |invoices|
    ensures CryptoSweep(invoices[..j]).actions <= CryptoSweep(invoices).actions
    ensures var s := CryptoSweep(invoices);
      var before := |CryptoSweep(invoices[..j]).actions|;
      !s.panicked && Eligible(invoices[j]) ==>
        && PurchaseIdOf(invoices[j].payload).Some?
        && before < |s.actions|
        && s.actions[before] == ProcessPurchase(PurchaseIdOf(invoices[j].payload).value)
    decreases |invoices|
  {
    var n := |invoices| - 1;
    if j < n {
      SweepInInvoiceOrder(invoices[..n], j);
      assert invoices[..n][..j] == invoices[..j];
    }
  }

  /** Once a pass panics, the later invoices are never looked at. */
  lemma {:induction false} PanicEndsSweep(invoices: seq<CryptoPay.Invoice>, k: nat)
    requires k <= |invoices| && CryptoSweep(invoices[..k]).panicked
    ensures CryptoSweep(invoices) == CryptoSweep(invoices[..k])
    decreases |invoices| - k
  {
    if k < |invoices| {
      assert invoices[..k + 1][..k] == invoices[..k];
      PanicEndsSweep(invoices, k + 1);
    } else {
      assert invoices[..k] == invoices;
    }
  }

  /** The comma-joined query a crypto pass sends, or None when no pending purchase has an invoice id. */
  function CryptoQuery(pending: seq<P.Purchase>): Option<string>
  {
    var ids := InvoiceIds(pending);
    if ids == [] then None else Some(Text.Join(ids, ','))
  }

  /** A whole crypto pass: no request without ids, nothing done when the request fails. */
  function CryptoPass(pending: seq<P.Purchase>, fetch: string -> Result<seq<CryptoPay.Invoice>, Http.Failure>): Sweep
  {
    match CryptoQuery(pending)
    case None => Sweep([], false)
    case Some(query) => if fetch(query).Err? then Sweep([], false) else CryptoSweep(fetch(query).value)
  }

  /** The loop of checkCryptoPayInvoice that lists the invoice ids of the pending purchases, in order. */
  method CollectInvoiceIds(pending: seq<P.Purchase>) returns (ids: seq<string>)
    ensures ids == InvoiceIds(pending)
  {
    ids := [];
    var i := 0;
    while i < |pending|
      invariant 0 <= i <= |pending|
      invariant ids == InvoiceIds(pending[..i])
    {
      assert pending[..i + 1][..i] == pending[..i];
      if pending[i].cryptoInvoiceId.Some? {
        ids := ids + [Text.IntToString(pending[i].cryptoInvoiceId.value)];
      }
      i := i + 1;
    }
    assert pending[..i] == pending;
  }

  /** checkCryptoPayInvoice, one pass; `fetch` answers GetInvoices for a comma-separated id list. */
  method CheckCryptoPayInvoice(service: Payment.PaymentService, now: int,
                               fetch: string -> Result<seq<CryptoPay.Invoice>, Http.Failure>,
                               answers: nat -> Result<Remnawave.User, Remnawave.ClientError>, sendFails: nat -> bool)
    returns (query: Option<string>, sweep: Sweep)
    requires service.Valid()
    modifies service, service.purchases, service.customers
    ensures service.Valid()
    ensures query == CryptoQuery(P.Select(old(service.purchases.rows), P.Crypto, P.Pending))
    ensures sweep == CryptoPass(P.Select(old(service.purchases.rows), P.Crypto, P.Pending), fetch)
    ensures service.Snapshot() == Run(old(service.Snapshot()), sweep.actions, now, Settings.TrafficLimit(service.settings.conf), answers, sendFails)
  {
    query, sweep := None, Sweep([], false);
    var pending := service.purchases.FindByInvoiceTypeAndStatus(P.Crypto, P.Pending);
    if |pending| == 0 {
      return;
    }
    var ids := CollectInvoiceIds(pending);
    if |ids| == 0 {
      return;
    }
    query := Some(Text.Join(ids, ','));
    var invoices := fetch(query.value);
    if invoices.Err? {
      return;
    }
    sweep := ProcessPaidInvoices(service, invoices.value, now, answers, sendFails);
  }

  /** The loop of checkCryptoPayInvoice over the fetched invoices: each paid one processes the purchase its payload names. */
  method ProcessPaidInvoices(service: Payment.PaymentService, list: seq<CryptoPay.Invoice>, now: int,
                             answers: nat -> Result<Remnawave.User, Remnawave.ClientError>, sendFails: nat -> bool)
    returns (sweep: Sweep)
    requires service.Valid()
    modifies service, service.purchases, service.customers
    ensures service.Valid()
    ensures sweep == CryptoSweep(list)
    ensures service.Snapshot() == Run(old(service.Snapshot()), sweep.actions, now, Settings.TrafficLimit(service.settings.conf), answers, sendFails)
  {
    ghost var w0 := service.Snapshot();
    sweep := Sweep([], false);
    var trafficLimit := Settings.TrafficLimit(service.settings.conf);
    var k := 0;
    while k < |list|
      invariant 0 <= k <= |list|
      invariant service.Valid()
      invariant trafficLimit == Settings.TrafficLimit(service.settings.conf)
      invariant sweep == CryptoSweep(list[..k]) && !sweep.panicked
      invariant service.Snapshot() == Run(w0, sweep.actions, now, trafficLimit, answers, sendFails)
    {
      assert list[..k + 1][..k] == list[..k];
      var next := ProcessInvoice(service, w0, sweep, list[k], now, trafficLimit, answers, sendFails);
      if next.panicked {
        PanicEndsSweep(list, k + 1);
        return next;
      }
      sweep := next;
      k := k + 1;
    }
    assert list[..k] == list;
  }

  /** One invoice of checkCryptoPayInvoice's loop. */
  method ProcessInvoice(service: Payment.PaymentService, ghost w0: Payment.World, sweep: Sweep, invoice: CryptoPay.Invoice, now: int,
                        trafficLimit: int, answers: nat -> Result<Remnawave.User, Remnawave.ClientError>, sendFails: nat -> bool)
    returns (next: Sweep)
    requires service.Valid() && !sweep.panicked && trafficLimit == Settings.TrafficLimit(service.settings.conf)
    requires service.Snapshot() == Run(w0, sweep.actions, now, trafficLimit, answers, sendFails)
    modifies service, service.purchases, service.customers
    ensures service.Valid()
    ensures next == SweepStep(sweep, invoice)
    ensures service.Snapshot() == Run(w0, next.actions, now, trafficLimit, answers, sendFails)
  {
    next := sweep;
    if invoice.invoiceId.Some? && CryptoPay.IsPaid(invoice) {
      var read := ReadPurchaseId(invoice.payload);
      if read.None? {
        return Sweep(sweep.actions, true);
      }
      var purchaseId := read.value;
      RunAppend(w0, sweep.actions, ProcessPurchase(purchaseId), now, trafficLimit, answers, sendFails);
      var err := service.ProcessPurchaseById(purchaseId, now, answers(|sweep.actions|), sendFails(|sweep.actions|));
      next := Sweep(sweep.actions + [ProcessPurchase(purchaseId)], false);
    }
  }

  /** The purchase id in a crypto invoice's payload, or None where reading it panics. */
  method ReadPurchaseId(payload: string) returns (id: Option<int>)
    ensures id == PurchaseIdOf(payload)
  {
    var pieces := Text.Split(payload, '=');
    if |pieces| < 2 {
      return None;
    }
    return Some(Text.AtoiOrZero(pieces[1]));
  }

  // ---------------------------------------------------------------- countries

  /** A node that serves users: enabled and online. */
  predicate Serving(n: Remnawave.Node)
  {
    !n.isDisabled && n.isNodeOnline
  }

  /** `"<emoji> <code>"`; the flag emoji of a country code is an input. */
  function CountryText(code: string, emoji: string -> string): string
  {
    emoji(code) + " " + code
  }

  /** The country map built from the serving nodes whose code passes `keep`. */
  function Collect(nodes: seq<Remnawave.Node>, keep: string -> bool, emoji: string -> string): map<string, string>
    decreases |nodes|
  {
    if nodes == [] then map[]
    else
      var n := |nodes| - 1;
      var m := Collect(nodes[..n], keep, emoji);
      if Serving(nodes[n]) && keep(nodes[n].countryCode) then m[nodes[n].countryCode := CountryText(nodes[n].countryCode, emoji)] else m
  }

  /** The map has one entry per country code of a serving node that passes `keep`, and each entry is that code's text. */
  lemma {:induction false} CollectExact(nodes: seq<Remnawave.Node>, keep: string -> bool, emoji: string -> string)
    ensures forall c :: c in Collect(nodes, keep, emoji) <==> exists n :: n in nodes && Serving(n) && keep(n.countryCode) && n.countryCode == c
    ensures forall c :: c in Collect(nodes, keep, emoji) ==> Collect(nodes, keep, emoji)[c] == CountryText(c, emoji)
    decreases |nodes|
  {
    if nodes != [] {
      var n := |nodes| - 1;
      CollectExact(nodes[..n], keep, emoji);
      assert nodes == nodes[..n] + [nodes[n]];
    }
  }

  /** initCountries: a failed node list panics; an empty filtered map falls back to every serving node. */
  function Countries(reply: Http.Reply<seq<Remnawave.Node>>, allowed: string -> bool, emoji: string -> string): Result<map<string, string>, string>
  {
    match Remnawave.GetNodes(reply)
    case Err(_) => Err("error getting nodes")
    case Ok(nodes) =>
      var filtered := Collect(nodes, allowed, emoji);
      if |filtered| == 0 then Ok(Collect(nodes, _ => true, emoji)) else Ok(filtered)
  }

  /**
   * The country list holds the codes of the enabled, online nodes whose
   * country is allowed; when there is none it holds the codes of all enabled,
   * online nodes instead. A node list that cannot be fetched stops start-up.
   */
  lemma CountriesRule(reply: Http.Reply<seq<Remnawave.Node>>, allowed: string -> bool, emoji: string -> string)
    ensures Countries(reply, allowed, emoji).Err? <==> Remnawave.GetNodes(reply).Err?
    ensures Countries(reply, allowed, emoji).Ok? ==>
      var nodes := Remnawave.GetNodes(reply).value;
      var m := Countries(reply, allowed, emoji).value;
      var anyAllowed := exists n :: n in nodes && Serving(n) && allowed(n.countryCode);
      && (forall c :: c in m ==> m[c] == CountryText(c, emoji))
      && (anyAllowed ==> forall c :: c in m <==> exists n :: n in nodes && Serving(n) && allowed(n.countryCode) && n.countryCode == c)
      && (!anyAllowed ==> forall c :: c in m <==> exists n :: n in nodes && Serving(n) && n.countryCode == c)
  {
    if Remnawave.GetNodes(reply).Ok? {
      var nodes := Remnawave.GetNodes(reply).value;
      CollectExact(nodes, allowed, emoji);
      CollectExact(nodes, _ => true, emoji);
      var filtered := Collect(nodes, allowed, emoji);
      if exists n :: n in nodes && Serving(n) && allowed(n.countryCode) {
        var n :| n in nodes && Serving(n) && allowed(n.countryCode);
        assert n.countryCode in filtered;
      }
    }
  }

  /**
   * One of initCountries' loops over the nodes: each enabled, online node
   * whose country passes `keep` sets its country's entry. The first loop keeps
   * the allowed countries, the fallback loop every country.
   */
  method CollectNodes(nodes: seq<Remnawave.Node>, keep: string -> bool, emoji: string -> string)
    returns (unique: map<string, string>)
    ensures unique == Collect(nodes, keep, emoji)
  {
    unique := map[];
    var i := 0;
    while i < |nodes|
      invariant 0 <= i <= |nodes|
      invariant unique == Collect(nodes[..i], keep, emoji)
    {
      assert nodes[..i + 1][..i] == nodes[..i];
      var node := nodes[i];
      if !node.isDisabled && node.isNodeOnline && keep(node.countryCode) {
        unique := unique[node.countryCode := CountryText(node.countryCode, emoji)];
      }
      i := i + 1;
    }
    assert nodes[..i] == nodes;
  }

  /** initCountries, with its two loops; the result is what it stores as the country list. */
  method InitCountries(reply: Http.Reply<seq<Remnawave.Node>>, allowed: string -> bool, emoji: string -> string)
    returns (r: Result<map<string, string>, string>)
    ensures r == Countries(reply, allowed, emoji)
  {
    var fetched := Remnawave.GetNodes(reply);
    if fetched.Err? {
      return Err("error getting nodes");
    }
    var unique := CollectNodes(fetched.value, allowed, emoji);
    if |unique| == 0 {
      unique := CollectNodes(fetched.value, _ => true, emoji);
    }
    r := Ok(unique);
  }
}

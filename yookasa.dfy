/**
 * The YooKassa gateway client (internal/yookasa/client.go) and its payment
 * model (internal/yookasa/models.go). The exchanges with the gateway are
 * inputs; times are milliseconds.
 */
module Yookasa {
  import opened Wrappers
  import Text
  import Clock
  import opened Http

  datatype Amount = Amount(value: string, currency: string)

  datatype Item = Item(description: string, amount: Amount, vatCode: int, quantity: string, paymentSubject: string, paymentMode: string)

  datatype Receipt = Receipt(items: seq<Item>, customerEmail: string)

  datatype Confirmation = Confirmation(returnUrl: string, kind: string, confirmationUrl: string)

  /** A metadata value as the request carries it: a number, a text, or nil (a missing context value). */
  datatype MetaValue = MetaInt(n: int) | MetaText(s: string) | MetaNil

  datatype PaymentRequest = PaymentRequest(
    amount: Amount,
    confirmation: Confirmation,
    capture: bool,
    description: string,
    paymentMethodData: Option<string>,
    savePaymentMethod: bool,
    paymentMethodId: Option<string>,
    receipt: Option<Receipt>,
    metadata: map<string, MetaValue>)

  /** A payment as the gateway reports it; metadata values come back as text. */
  datatype Payment = Payment(
    id: string,
    status: string,
    paid: bool,
    amount: Amount,
    confirmation: Confirmation,
    description: string,
    metadata: map<string, string>)

  predicate IsCancelled(p: Payment)
  {
    p.status == "canceled"
  }

  /** NewPaymentRequest. */
  function NewPaymentRequest(amount: Amount, urlRedirect: string, description: string,
                             receipt: Option<Receipt>, metadata: map<string, MetaValue>): PaymentRequest
  {
    PaymentRequest(amount, Confirmation(urlRedirect, "redirect", ""), true, description, None, false, None, receipt, metadata)
  }

  /**
   * A payment request is captured at once, confirmed by redirect back to the
   * given URL, carries no payment method, and keeps the amount, receipt,
   * metadata and description it was given.
   */
  lemma PaymentRequestFields(amount: Amount, urlRedirect: string, description: string,
                             receipt: Option<Receipt>, metadata: map<string, MetaValue>)
    ensures var r := NewPaymentRequest(amount, urlRedirect, description, receipt, metadata);
      && r.capture
      && r.confirmation.kind == "redirect" && r.confirmation.returnUrl == urlRedirect
      && r.paymentMethodData.None? && r.paymentMethodId.None? && !r.savePaymentMethod
      && r.amount == amount && r.receipt == receipt && r.metadata == metadata && r.description == description
  {
  }

  /** The Russian word for "month" after a count: 1 месяц, 3 or 4 месяца, anything else месяцев. */
  function MonthWord(month: int): string
  {
    if month == 1 then "месяц"
    else if month == 3 || month == 4 then "месяца"
    else "месяцев"
  }

  function Description(month: int): string
  {
    "Подписка на " + Text.IntToString(month) + " " + MonthWord(month)
  }

  /**
   * The description names the period: its words are "Подписка", "на", the
   * month count in decimal, which reads back as the count, and the Russian
   * word for "month" that the count takes.
   */
  lemma DescriptionNamesMonth(month: int)
    ensures var words := Text.Split(Description(month), ' ');
      && |words| == 4 && words[0] == "Подписка" && words[1] == "на"
      && Text.ParseInt(words[2]) == Some(month) && words[3] == MonthWord(month)
  {
    var n := Text.IntToString(month);
    var word := MonthWord(month);
    Text.IntToStringHasNo(month, ' ');
    assert ' ' !in "Подписка" && ' ' !in "на" && ' ' !in word;
    assert Description(month) == "Подписка" + [' '] + ("на" + [' '] + (n + [' '] + word));
    Text.SplitAfterPrefix("Подписка", "на" + [' '] + (n + [' '] + word), ' ');
    Text.SplitAfterPrefix("на", n + [' '] + word, ' ');
    Text.SplitAfterPrefix(n, word, ' ');
    Text.SplitWithoutSeparator(word, ' ');
    Text.ParseIntRoundTrip(month);
  }

  /** The request CreateInvoice builds, before it is sent. */
  function InvoiceRequest(amount: int, month: int, customerId: int, purchaseId: int, username: MetaValue,
                          email: string, botUrl: string): PaymentRequest
  {
    var rub := Amount(Text.IntToString(amount), "RUB");
    var description := Description(month);
    var receipt := Receipt([Item(description, rub, 1, "1", "payment", "full_payment")], email);
    var metadata := map["customerId" := MetaInt(customerId), "purchaseId" := MetaInt(purchaseId), "username" := username];
    NewPaymentRequest(rub, botUrl, description, Some(receipt), metadata)
  }

  /**
   * The invoice asks for `amount` roubles (the text reads back as the same
   * number), describes the subscription length, returns the payer to the bot,
   * has a one-item receipt with the same amount and description, and carries
   * exactly the metadata keys customerId, purchaseId and username.
   */
  lemma InvoiceRequestRules(amount: int, month: int, customerId: int, purchaseId: int, username: MetaValue,
                            email: string, botUrl: string)
    ensures var r := InvoiceRequest(amount, month, customerId, purchaseId, username, email, botUrl);
      && Text.ParseInt(r.amount.value) == Some(amount) && r.amount.currency == "RUB"
      && r.description == Description(month)
      && r.confirmation.returnUrl == botUrl && r.capture
      && r.receipt.Some? && |r.receipt.value.items| == 1
      && r.receipt.value.items[0].amount == r.amount && r.receipt.value.items[0].description == r.description
      && r.receipt.value.customerEmail == email
      && r.metadata.Keys == {"customerId", "purchaseId", "username"}
      && r.metadata["customerId"] == MetaInt(customerId) && r.metadata["purchaseId"] == MetaInt(purchaseId)
  {
    Text.ParseIntRoundTrip(amount);
  }

  /** CreatePayment: only 200 and 201 are success. */
  function CreatePayment(reply: Reply<Payment>): (r: Result<Payment, Failure>)
    ensures r.Ok? <==> reply.Response? && (reply.code == StatusOk || reply.code == StatusCreated) && reply.body.Some?
    ensures r.Ok? ==> r.value == reply.body.value
  {
    match reply
    case NoResponse(_, _) => Err(Wrap("failed to send request: ", reply.Cause()))
    case Response(code, body) =>
      if code != StatusOk && code != StatusCreated then Err(Failure("API return error. Status: " + Text.IntToString(code), false, false))
      else if body.None? then Err(DecodeFailure)
      else Ok(body.value)
  }

  /** What CreateInvoice sent (the request and its Idempotence-Key) and what it returned. */
  datatype InvoiceCall = InvoiceCall(request: PaymentRequest, idempotenceKey: string, result: Result<Payment, Failure>)

  /** CreateInvoice; `key` is the fresh UUID it generates for the Idempotence-Key header. */
  function CreateInvoice(amount: int, month: int, customerId: int, purchaseId: int, username: MetaValue,
                         email: string, botUrl: string, key: string, reply: Reply<Payment>): (c: InvoiceCall)
    ensures c.request == InvoiceRequest(amount, month, customerId, purchaseId, username, email, botUrl)
    ensures c.idempotenceKey == key
    ensures c.result.Ok? <==> CreatePayment(reply).Ok?
    ensures c.result.Ok? ==> c.result.value == reply.body.value
  {
    var request := InvoiceRequest(amount, month, customerId, purchaseId, username, email, botUrl);
    match CreatePayment(reply)
    case Ok(p) => InvoiceCall(request, key, Ok(p))
    case Err(f) => InvoiceCall(request, key, Err(Wrap("failed to create payment: ", f)))
  }

  const MaxRetries: nat := 5
  const BaseDelayMs: int := 1000

  const TooManyRetries: Failure := Failure("exceeded maximum retries due to 429 Too Many Requests", false, false)

  predicate IsThrottled(reply: Reply<Payment>)
  {
    reply.Response? && reply.code == StatusTooManyRequests
  }

  /** What GetPayment makes of a reply other than 429. */
  function Answer(reply: Reply<Payment>): Result<Payment, Failure>
  {
    match reply
    case NoResponse(_, _) => Err(Wrap("failed to send request: ", reply.Cause()))
    case Response(code, body) =>
      if code == StatusOk then (if body.None? then Err(DecodeFailure) else Ok(body.value))
      else Err(StatusFailure(code))
  }

  /** The result of GetPayment, the number of requests it sent and the sleeps it took. */
  datatype Fetch = Fetch(result: Result<Payment, Failure>, calls: nat, sleeps: seq<int>)

  /** GetPayment from attempt `attempt` on; `replies(k)` answers the k-th request. */
  function FetchFrom(attempt: nat, replies: nat -> Reply<Payment>): (f: Fetch)
    ensures attempt < MaxRetries ==> attempt < f.calls <= MaxRetries
    decreases MaxRetries - attempt
  {
    if attempt >= MaxRetries then Fetch(Err(TooManyRetries), attempt, [])
    else if IsThrottled(replies(attempt)) then
      var rest := FetchFrom(attempt + 1, replies);
      rest.(sleeps := [BaseDelayMs * Clock.Pow2(attempt)] + rest.sleeps)
    else Fetch(Answer(replies(attempt)), attempt + 1, [])
  }

  /**
   * The 429 policy of GetPayment: at most 5 requests; every request but the
   * last was answered 429; the first other answer decides the result (200
   * gives the payment, anything else an error); five 429s give up with an
   * error.
   */
  lemma FetchPolicy(attempt: nat, replies: nat -> Reply<Payment>)
    requires attempt <= MaxRetries
    ensures var r := FetchFrom(attempt, replies);
      && (attempt < MaxRetries ==> attempt < r.calls <= MaxRetries)
      && (forall k :: attempt <= k < r.calls - 1 ==> IsThrottled(replies(k)))
      && (attempt < MaxRetries && !IsThrottled(replies(r.calls - 1)) ==> r.result == Answer(replies(r.calls - 1)))
      && (attempt < MaxRetries && IsThrottled(replies(r.calls - 1)) ==> r.calls == MaxRetries && r.result == Err(TooManyRetries))
      && (r.result.Ok? ==> replies(r.calls - 1).Response? && replies(r.calls - 1).code == StatusOk)
  {
    FetchCalls(attempt, replies);
    FetchResult(attempt, replies);
  }

  /** The requests: at most five, and every one before the last was answered 429. */
  lemma {:induction false} FetchCalls(attempt: nat, replies: nat -> Reply<Payment>)
    requires attempt <= MaxRetries
    ensures var r := FetchFrom(attempt, replies);
      && (attempt < MaxRetries ==> attempt < r.calls <= MaxRetries)
      && (forall k :: attempt <= k < r.calls - 1 ==> IsThrottled(replies(k)))
    decreases MaxRetries - attempt
  {
    if attempt < MaxRetries && IsThrottled(replies(attempt)) {
      FetchCalls(attempt + 1, replies);
      assert FetchFrom(attempt, replies).calls == FetchFrom(attempt + 1, replies).calls;
    }
  }

  /** The result: the last answer decides, unless it was the fifth 429; a payment only comes with a 200. */
  lemma {:induction false} FetchResult(attempt: nat, replies: nat -> Reply<Payment>)
    requires attempt <= MaxRetries
    ensures var r := FetchFrom(attempt, replies);
      && (attempt < MaxRetries && !IsThrottled(replies(r.calls - 1)) ==> r.result == Answer(replies(r.calls - 1)))
      && (attempt < MaxRetries && IsThrottled(replies(r.calls - 1)) ==> r.calls == MaxRetries && r.result == Err(TooManyRetries))
      && (r.result.Ok? ==> replies(r.calls - 1).Response? && replies(r.calls - 1).code == StatusOk)
    decreases MaxRetries - attempt
  {
    var r := FetchFrom(attempt, replies);
    if attempt < MaxRetries && IsThrottled(replies(attempt)) {
      FetchResult(attempt + 1, replies);
      var rest := FetchFrom(attempt + 1, replies);
      assert r.calls == rest.calls && r.result == rest.result;
    }
  }

  /**
   * The sleeps of GetPayment: one after each 429 (the fifth one too), the
   * k-th of them 1s·2^k.
   */
  lemma FetchSleeps(attempt: nat, replies: nat -> Reply<Payment>)
    requires attempt <= MaxRetries
    ensures var r := FetchFrom(attempt, replies);
      && (forall k :: 0 <= k < |r.sleeps| ==> r.sleeps[k] == BaseDelayMs * Clock.Pow2(attempt + k))
      && (attempt < MaxRetries ==> r.calls > attempt)
      && (attempt < MaxRetries && !IsThrottled(replies(r.calls - 1)) ==> |r.sleeps| == r.calls - 1 - attempt)
      && (attempt < MaxRetries && IsThrottled(replies(r.calls - 1)) ==> |r.sleeps| == MaxRetries - attempt)
  {
    SleepDelays(attempt, replies);
    SleepCount(attempt, replies);
  }

  /** The k-th sleep from attempt `attempt` on lasts 1s·2^(attempt+k). */
  lemma {:induction false} SleepDelays(attempt: nat, replies: nat -> Reply<Payment>)
    requires attempt <= MaxRetries
    ensures var r := FetchFrom(attempt, replies);
      forall k :: 0 <= k < |r.sleeps| ==> r.sleeps[k] == BaseDelayMs * Clock.Pow2(attempt + k)
    decreases MaxRetries - attempt
  {
    if attempt < MaxRetries && IsThrottled(replies(attempt)) {
      SleepDelays(attempt + 1, replies);
      var rest := FetchFrom(attempt + 1, replies);
      var r := FetchFrom(attempt, replies);
      assert r.sleeps == [BaseDelayMs * Clock.Pow2(attempt)] + rest.sleeps;
      forall k | 0 <= k < |r.sleeps|
        ensures r.sleeps[k] == BaseDelayMs * Clock.Pow2(attempt + k)
      {
        if k > 0 {
          assert r.sleeps[k] == rest.sleeps[k - 1];
        }
      }
    }
  }

  /** One sleep per 429 answer: before the deciding answer, or after each of five 429s. */
  lemma {:induction false} SleepCount(attempt: nat, replies: nat -> Reply<Payment>)
    requires attempt <= MaxRetries
    ensures var r := FetchFrom(attempt, replies);
      && (attempt < MaxRetries ==> r.calls > attempt)
      && (attempt < MaxRetries && !IsThrottled(replies(r.calls - 1)) ==> |r.sleeps| == r.calls - 1 - attempt)
      && (attempt < MaxRetries && IsThrottled(replies(r.calls - 1)) ==> |r.sleeps| == MaxRetries - attempt)
    decreases MaxRetries - attempt
  {
    if attempt < MaxRetries && IsThrottled(replies(attempt)) {
      SleepCount(attempt + 1, replies);
      var rest := FetchFrom(attempt + 1, replies);
      var r := FetchFrom(attempt, replies);
      assert r.calls == rest.calls && |r.sleeps| == |rest.sleeps| + 1;
    }
  }

  /** GetPayment, attempt by attempt. */
  method GetPayment(replies: nat -> Reply<Payment>) returns (f: Fetch)
    ensures f == FetchFrom(0, replies)
  {
    var sleeps: seq<int> := [];
    var attempt: nat := 0;
    while attempt < MaxRetries
      invariant attempt <= MaxRetries
      invariant var rest := FetchFrom(attempt, replies); FetchFrom(0, replies) == rest.(sleeps := sleeps + rest.sleeps)
      decreases MaxRetries - attempt
    {
      var reply := replies(attempt);
      if reply.NoResponse? {
        return Fetch(Err(Wrap("failed to send request: ", reply.Cause())), attempt + 1, sleeps);
      }
      if reply.code == StatusOk {
        if reply.body.None? {
          return Fetch(Err(DecodeFailure), attempt + 1, sleeps);
        }
        return Fetch(Ok(reply.body.value), attempt + 1, sleeps);
      }
      if reply.code == StatusTooManyRequests {
        var delay := BaseDelayMs * Clock.Pow2(attempt);
        ghost var rest := FetchFrom(attempt + 1, replies);
        assert sleeps + ([delay] + rest.sleeps) == (sleeps + [delay]) + rest.sleeps;
        sleeps := sleeps + [delay];
        attempt := attempt + 1;
        continue;
      }
      return Fetch(Err(StatusFailure(reply.code)), attempt + 1, sleeps);
    }
    return Fetch(Err(TooManyRetries), attempt, sleeps);
  }
}

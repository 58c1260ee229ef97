/**
 * The Tribute subscription webhook (internal/tribute/tribute.go). The
 * handler's answer is a status code plus the calls it made on the customer
 * directory and the payment service, in order.
 *
 * The handler calls a CreatePurchase that returns a purchase id and accepts
 * a `tribute` invoice type; the payment service in this model has neither, so
 * the handler is modelled on its own: what those calls return is an input.
 * HMAC-SHA256 in hex is an input function of the key and the body, and JSON
 * decoding an input function of the body.
 */
module Tribute {
  import opened Wrappers
  import Text
  import Http

  datatype Payload = Payload(period: string, amount: int, telegramUserId: int)

  datatype Webhook = Webhook(name: string, payload: Payload)

  /** The request as the handler sees it: the body (None when it cannot be read) and the `trbt-signature` header. */
  datatype Request = Request(body: Option<string>, signature: string)

  datatype Call =
    | FindCustomer(telegramId: int)
    | CreatePurchase(amount: int, months: int, telegramId: int)
    | ProcessPurchase(purchaseId: int)

  datatype Answer = Answer(status: int, calls: seq<Call>)

  /** What the payment service answers: the new purchase id or an error, and whether processing failed. */
  datatype Outcomes = Outcomes(created: Result<int, string>, processFails: bool)

  /** convertPeriodToMonths. */
  function PeriodToMonths(period: string): (months: int)
    ensures months in {1, 3, 6, 12}
  {
    var p := Text.ToLower(period);
    if p == "monthly" then 1
    else if p in {"quarterly", "3-month", "3months", "3-months", "q"} then 3
    else if p == "halfyearly" then 6
    else if p in {"yearly", "annual", "y"} then 12
    else 1
  }

  lemma LowerCharIdempotent(c: char)
    ensures Text.LowerChar(Text.LowerChar(c)) == Text.LowerChar(c)
  {
  }

  /** Lower-casing twice is lower-casing once. */
  lemma ToLowerIdempotent(s: string)
    ensures Text.ToLower(Text.ToLower(s)) == Text.ToLower(s)
  {
    forall k | 0 <= k < |s|
      ensures Text.ToLower(Text.ToLower(s))[k] == Text.ToLower(s)[k]
    {
      LowerCharIdempotent(s[k]);
    }
  }

  /** The period names are matched without regard to case: a period and its lower-cased form give the same months. */
  lemma PeriodCaseInsensitive(period: string)
    ensures PeriodToMonths(period) == PeriodToMonths(Text.ToLower(period))
  {
    ToLowerIdempotent(period);
  }

  /**
   * The table of period names: after lower-casing, the quarterly names give 3
   * months, "halfyearly" 6 and the yearly names 12, and no other name gives
   * any of those.
   */
  lemma PeriodNames(period: string)
    ensures PeriodToMonths(period) == 3 <==> Text.ToLower(period) in {"quarterly", "3-month", "3months", "3-months", "q"}
    ensures PeriodToMonths(period) == 6 <==> Text.ToLower(period) == "halfyearly"
    ensures PeriodToMonths(period) == 12 <==> Text.ToLower(period) in {"yearly", "annual", "y"}
  {
  }

  /** Every period the table does not name, in any case, counts as one month. */
  lemma UnknownPeriod(period: string)
    requires Text.ToLower(period) !in {"monthly", "quarterly", "3-month", "3months", "3-months", "q", "halfyearly", "yearly", "annual", "y"}
    ensures PeriodToMonths(period) == 1
  {
  }

  /** WebHookHandler. */
  function Handle(request: Request, apiKey: string, hmacHex: (string, string) -> string,
                  decode: string -> Option<Webhook>, outcomes: Outcomes): Answer
  {
    if request.body.None? then Answer(Http.StatusBadRequest, [])
    else if request.signature == "" then Answer(Http.StatusUnauthorized, [])
    else if hmacHex(apiKey, request.body.value) != request.signature then Answer(Http.StatusUnauthorized, [])
    else
      match decode(request.body.value)
      case None => Answer(Http.StatusBadRequest, [])
      case Some(hook) =>
        if hook.name != "new_subscription" then Answer(Http.StatusOk, [])
        else
          var months := PeriodToMonths(hook.payload.period);
          var tg := hook.payload.telegramUserId;
          var created := [FindCustomer(tg), CreatePurchase(hook.payload.amount, months, tg)];
          match outcomes.created
          case Err(_) => Answer(Http.StatusInternalServerError, created)
          case Ok(id) =>
            if outcomes.processFails then Answer(Http.StatusInternalServerError, created + [ProcessPurchase(id)])
            else Answer(Http.StatusOk, created + [ProcessPurchase(id)])
  }

  /** The request is authentic when a signature is present and equals the hex HMAC of the body under the API key. */
  predicate Authentic(request: Request, apiKey: string, hmacHex: (string, string) -> string)
  {
    request.body.Some? && request.signature != "" && hmacHex(apiKey, request.body.value) == request.signature
  }

  /**
   * The webhook's answers: an unreadable body or undecodable JSON is 400, a
   * missing or wrong signature 401, all three with no calls; an authentic
   * event other than `new_subscription` is 200 with no calls.
   */
  lemma Rejections(request: Request, apiKey: string, hmacHex: (string, string) -> string,
                   decode: string -> Option<Webhook>, outcomes: Outcomes)
    ensures var a := Handle(request, apiKey, hmacHex, decode, outcomes);
      && (request.body.Some? && !Authentic(request, apiKey, hmacHex) ==> a == Answer(Http.StatusUnauthorized, []))
      && (request.body.Some? && request.signature == "" ==> a.status == Http.StatusUnauthorized)
      && (a.calls != [] ==> Authentic(request, apiKey, hmacHex))
      && (Authentic(request, apiKey, hmacHex) && decode(request.body.value).None? ==> a == Answer(Http.StatusBadRequest, []))
      && (Authentic(request, apiKey, hmacHex) ==>
            var hook := decode(request.body.value);
            hook.Some? && hook.value.name != "new_subscription" ==> a == Answer(Http.StatusOk, []))
  {
  }

  /**
   * An authentic `new_subscription` event looks the customer up, creates a
   * purchase for the payload's amount and the period's months, and processes
   * the new purchase only when creation succeeded; it answers 200 exactly
   * when both succeeded and 500 otherwise.
   */
  lemma NewSubscription(request: Request, apiKey: string, hmacHex: (string, string) -> string,
                        decode: string -> Option<Webhook>, outcomes: Outcomes)
    requires Authentic(request, apiKey, hmacHex)
    requires decode(request.body.value).Some? && decode(request.body.value).value.name == "new_subscription"
    ensures var hook := decode(request.body.value).value;
      var a := Handle(request, apiKey, hmacHex, decode, outcomes);
      && a.calls[..2] == [FindCustomer(hook.payload.telegramUserId),
                          CreatePurchase(hook.payload.amount, PeriodToMonths(hook.payload.period), hook.payload.telegramUserId)]
      && (a.status == Http.StatusOk <==> outcomes.created.Ok? && !outcomes.processFails)
      && (a.status != Http.StatusOk ==> a.status == Http.StatusInternalServerError)
      && (|a.calls| == 3 <==> outcomes.created.Ok?)
      && (outcomes.created.Ok? ==> a.calls[2] == ProcessPurchase(outcomes.created.value))
  {
  }
}

/**
 * The daily expiry job (internal/notification/subscription.go): customers
 * whose subscription ends within three days either renew through their
 * Tribute subscription (on the last day) or get a reminder with a "buy"
 * button.
 *
 * The job's answer is the list of calls it makes, in order. The tribute
 * purchases of the expiring customers are an input (the query that finds
 * them is not part of this model), and so is what the payment service answers
 * when creating each renewal (see the Tribute module for why the purchase calls are not
 * made on the payment service of this model). A reminder carries the expiry
 * instant; its "02.01.2006" rendering is not modelled.
 */
module Notification {
  import opened Wrappers
  import Clock
  import Callbacks
  import P = Purchases
  import C = Customers

  const WindowDays: int := 3

  /** A reminder message: chat, language, text key, the expiry it names, and one button (text key, callback). */
  datatype Reminder = Reminder(chatId: int, language: string, textKey: string, expireAt: int, buttonKey: string, callback: string)

  datatype Call =
    | FindTributes(customerIds: seq<int>)
    | CreateTribute(customerId: int, amount: int, months: int)
    | ProcessTribute(purchaseId: int)
    | SendReminder(reminder: Reminder)

  /** getCustomersWithExpiringSubscriptions: the end of the window. */
  function WindowEnd(now: int): int
  {
    Clock.AddDays(now, WindowDays)
  }

  /** getDaysUntilExpiration: whole days between the two dates, both truncated to midnight. */
  function DaysUntil(now: int, expireAt: int): int
  {
    Clock.DayOf(expireAt) - Clock.DayOf(now)
  }

  /** d days later is d days until, whatever the time of day. */
  lemma DaysUntilCountsDays(now: int, d: int)
    ensures DaysUntil(now, Clock.AddDays(now, d)) == d
  {
    assert now + d * Clock.Day == (now / Clock.Day + d) * Clock.Day + now % Clock.Day;
  }

  /** Everyone in the window expires today or within the next three days. */
  lemma DaysUntilInWindow(now: int, expireAt: int)
    requires now <= expireAt <= WindowEnd(now)
    ensures 0 <= DaysUntil(now, expireAt) <= WindowDays
  {
    DaysUntilCountsDays(now, WindowDays);
    MonotoneDay(now, expireAt);
    MonotoneDay(expireAt, WindowEnd(now));
  }

  lemma MonotoneDay(a: int, b: int)
    requires a <= b
    ensures Clock.DayOf(a) <= Clock.DayOf(b)
  {
    var qa, qb := a / Clock.Day, b / Clock.Day;
    assert qa * Clock.Day <= a;
    assert b < (qb + 1) * Clock.Day;
    assert qa * Clock.Day < (qb + 1) * Clock.Day;
  }

  /** The customer -> tribute purchase map; a later purchase of the same customer replaces an earlier one. */
  function TributeIndex(tributes: seq<P.Purchase>): map<int, P.Purchase>
    decreases |tributes|
  {
    if tributes == [] then map[]
    else
      var n := |tributes| - 1;
      TributeIndex(tributes[..n])[tributes[n].customerId := tributes[n]]
  }

  /** Every customer with a tribute purchase is in the map, under the last of their purchases listed. */
  lemma {:induction false} LastTributeWins(tributes: seq<P.Purchase>)
    ensures forall id :: id in TributeIndex(tributes) <==> exists p :: p in tributes && p.customerId == id
    ensures forall k :: 0 <= k < |tributes| && (forall j :: k < j < |tributes| ==> tributes[j].customerId != tributes[k].customerId) ==>
      TributeIndex(tributes)[tributes[k].customerId] == tributes[k]
    decreases |tributes|
  {
    if tributes != [] {
      var n := |tributes| - 1;
      LastTributeWins(tributes[..n]);
      assert tributes == tributes[..n] + [tributes[n]];
      assert forall k :: 0 <= k < n ==> tributes[..n][k] == tributes[k];
    }
  }

  /** sendNotification's message for a customer. */
  function ReminderFor(c: C.Customer): Reminder
    requires c.expireAt.Some?
  {
    Reminder(c.telegramId, c.language, "subscription_expiring", c.expireAt.value, "renew_subscription_button", Callbacks.CallbackBuy)
  }

  /** The calls made for one expiring customer. */
  function ForCustomer(c: C.Customer, tribute: Option<P.Purchase>, now: int, created: Result<int, string>): seq<Call>
    requires c.expireAt.Some?
  {
    match tribute
    case Some(p) =>
      if DaysUntil(now, c.expireAt.value) != 1 then []
      else
        [CreateTribute(c.id, p.amount, p.month)] + (if created.Ok? then [ProcessTribute(created.value)] else [])
    case None => [SendReminder(ReminderFor(c))]
  }

  /**
   * A customer with a tribute purchase is never reminded: they get nothing
   * unless exactly one day remains, and then a renewal of the same amount and
   * months, processed only when it was created. A customer without one gets
   * exactly one reminder, with a button whose callback is `buy`.
   */
  lemma CustomerRules(c: C.Customer, tribute: Option<P.Purchase>, now: int, created: Result<int, string>)
    requires c.expireAt.Some?
    ensures var calls := ForCustomer(c, tribute, now, created);
      && (tribute.Some? ==> forall k :: 0 <= k < |calls| ==> !calls[k].SendReminder?)
      && (tribute.Some? && DaysUntil(now, c.expireAt.value) != 1 ==> calls == [])
      && (tribute.Some? && DaysUntil(now, c.expireAt.value) == 1 ==>
            && calls[0] == CreateTribute(c.id, tribute.value.amount, tribute.value.month)
            && (|calls| == 2 <==> created.Ok?)
            && (created.Ok? ==> calls[1] == ProcessTribute(created.value)))
      && (tribute.None? ==>
            && |calls| == 1 && calls[0].SendReminder? && calls[0].reminder.callback == "buy"
            && calls[0].reminder.chatId == c.telegramId && calls[0].reminder.expireAt == c.expireAt.value)
  {
  }

  predicate AllExpire(customers: seq<C.Customer>)
  {
    forall k :: 0 <= k < |customers| ==> customers[k].expireAt.Some?
  }

  /** The calls of the loop over the expiring customers; `renewals(k)` answers for the k-th customer. */
  function Pass(customers: seq<C.Customer>, index: map<int, P.Purchase>, now: int, renewals: nat -> Result<int, string>): seq<Call>
    requires AllExpire(customers)
    decreases |customers|
  {
    if customers == [] then []
    else
      var n := |customers| - 1;
      var c := customers[n];
      Pass(customers[..n], index, now, renewals) + ForCustomer(c, if c.id in index then Some(index[c.id]) else None, now, renewals(n))
  }

  /** A reminder goes out exactly to the expiring customers without a tribute purchase. */
  lemma {:induction false} RemindersGoToNonTributeCustomers(customers: seq<C.Customer>, index: map<int, P.Purchase>, now: int,
                                                           renewals: nat -> Result<int, string>, r: Reminder)
    requires AllExpire(customers)
    ensures SendReminder(r) in Pass(customers, index, now, renewals) <==>
      exists k :: 0 <= k < |customers| && customers[k].id !in index && r == ReminderFor(customers[k])
    decreases |customers|
  {
    if customers != [] {
      var n := |customers| - 1;
      RemindersGoToNonTributeCustomers(customers[..n], index, now, renewals, r);
      assert forall k :: 0 <= k < n ==> customers[..n][k] == customers[k];
    }
  }

  function Ids(customers: seq<C.Customer>): (ids: seq<int>)
    ensures |ids| == |customers| && forall k :: 0 <= k < |customers| ==> ids[k] == customers[k].id
  {
    seq(|customers|, k requires 0 <= k < |customers| => customers[k].id)
  }

  /** The customers the job looks at; every one of them has an expiry. */
  function Expiring(rows: seq<C.Customer>, now: int): (cs: seq<C.Customer>)
    ensures AllExpire(cs)
  {
    C.InRangeExact(rows, now, WindowEnd(now));
    C.InRange(rows, now, WindowEnd(now))
  }

  /** ProcessSubscriptionExpiration: its error, if any, and its calls. */
  function Expiration(rows: seq<C.Customer>, now: int, tributes: Result<seq<P.Purchase>, string>,
                      renewals: nat -> Result<int, string>): (Option<string>, seq<Call>)
  {
    var expiring := Expiring(rows, now);
    if expiring == [] then (None, [])
    else
      var query := FindTributes(Ids(expiring));
      match tributes
      case Err(e) => (Some(e), [query])
      case Ok(ts) => (None, [query] + Pass(expiring, TributeIndex(ts), now, renewals))
  }

  /**
   * The job looks exactly at the customers whose expiry lies in [now, now+3
   * days]; with none it makes no call at all; otherwise it first asks for
   * their tribute purchases, and a failed query ends the job with its error.
   */
  lemma ExpirationRules(rows: seq<C.Customer>, now: int, tributes: Result<seq<P.Purchase>, string>, renewals: nat -> Result<int, string>)
    ensures forall c :: c in Expiring(rows, now) <==> c in rows && c.expireAt.Some? && now <= c.expireAt.value <= now + 3 * Clock.Day
    ensures forall c :: c in Expiring(rows, now) ==> 0 <= DaysUntil(now, c.expireAt.value) <= 3
    ensures Expiring(rows, now) == [] ==> Expiration(rows, now, tributes, renewals) == (None, [])
    ensures Expiring(rows, now) != [] ==>
      && Expiration(rows, now, tributes, renewals).1[0] == FindTributes(Ids(Expiring(rows, now)))
      && (tributes.Err? ==> Expiration(rows, now, tributes, renewals) == (Some(tributes.error), [FindTributes(Ids(Expiring(rows, now)))]))
  {
    C.InRangeExact(rows, now, WindowEnd(now));
    forall c | c in Expiring(rows, now)
      ensures 0 <= DaysUntil(now, c.expireAt.value) <= 3
    {
      DaysUntilInWindow(now, c.expireAt.value);
    }
  }

  class SubscriptionService {
    const customers: C.CustomerRepository

    constructor (customers: C.CustomerRepository)
      ensures this.customers == customers
    {
      this.customers := customers;
    }

    /** ProcessSubscriptionExpiration, one run at instant `now`. */
    method ProcessSubscriptionExpiration(now: int, tributes: Result<seq<P.Purchase>, string>, renewals: nat -> Result<int, string>)
      returns (err: Option<string>, calls: seq<Call>)
      ensures (err, calls) == Expiration(customers.rows, now, tributes, renewals)
    {
      var expiring := customers.FindByExpirationRange(now, WindowEnd(now));
      assert expiring == Expiring(customers.rows, now);
      if |expiring| == 0 {
        return None, [];
      }
      var ids: seq<int> := [];
      var i := 0;
      while i < |expiring|
        invariant 0 <= i <= |expiring|
        invariant ids == Ids(expiring[..i])
      {
        ids := ids + [expiring[i].id];
        i := i + 1;
      }
      assert expiring[..i] == expiring;
      calls := [FindTributes(ids)];
      if tributes.Err? {
        return Some(tributes.error), calls;
      }
      var index := IndexTributes(tributes.value);
      var rest := NotifyEach(expiring, index, now, renewals);
      calls := calls + rest;
      err := None;
    }
  }

  /** The loop that builds the customer -> tribute purchase map. */
  method IndexTributes(list: seq<P.Purchase>) returns (index: map<int, P.Purchase>)
    ensures index == TributeIndex(list)
  {
    index := map[];
    var i := 0;
    while i < |list|
      invariant 0 <= i <= |list|
      invariant index == TributeIndex(list[..i])
    {
      assert list[..i + 1][..i] == list[..i];
      index := index[list[i].customerId := list[i]];
      i := i + 1;
    }
    assert list[..i] == list;
  }

  /** The loop over the expiring customers. */
  method NotifyEach(expiring: seq<C.Customer>, index: map<int, P.Purchase>, now: int, renewals: nat -> Result<int, string>)
    returns (calls: seq<Call>)
    requires AllExpire(expiring)
    ensures calls == Pass(expiring, index, now, renewals)
  {
    calls := [];
    var k := 0;
    while k < |expiring|
      invariant 0 <= k <= |expiring|
      invariant calls == Pass(expiring[..k], index, now, renewals)
    {
      assert expiring[..k + 1][..k] == expiring[..k];
      var c := expiring[k];
      var step := NotifyOne(c, if c.id in index then Some(index[c.id]) else None, now, renewals(k));
      calls := calls + step;
      k := k + 1;
    }
    assert expiring[..k] == expiring;
  }

  /** One customer of the loop: `created` is what creating its tribute renewal answered. */
  method NotifyOne(c: C.Customer, tribute: Option<P.Purchase>, now: int, created: Result<int, string>) returns (step: seq<Call>)
    requires c.expireAt.Some?
    ensures step == ForCustomer(c, tribute, now, created)
  {
    var days := DaysUntil(now, c.expireAt.value);
    step := [];
    if tribute.Some? {
      var p := tribute.value;
      if days == 1 {
        step := [CreateTribute(c.id, p.amount, p.month)];
        if created.Ok? {
          step := step + [ProcessTribute(created.value)];
        }
      }
    } else {
      step := [SendReminder(ReminderFor(c))];
    }
  }
}

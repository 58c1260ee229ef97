/**
 * The Remnawave panel client (internal/remnawave/client.go): the provisioner
 * that creates or extends a VPN user. Every HTTP exchange is an input `Reply`.
 * A Go panic (nil dereference, index out of range) is the `Panicked` error.
 */
module Remnawave {
  import opened Wrappers
  import Text
  import Clock
  import opened Http

  /** What a client call can end in besides a value: a returned error or a panic. */
  datatype ClientError = Returned(failure: Failure) | Panicked(reason: string)

  datatype Inbound = Inbound(uuid: string, tag: string, kind: string)

  datatype User = User(
    uuid: string,
    username: string,
    status: string,
    trafficLimitBytes: int,
    trafficLimitStrategy: string,
    expireAt: int,
    subscriptionUrl: string,
    telegramId: Option<int>)

  datatype Node = Node(uuid: string, name: string, isDisabled: bool, isNodeOnline: bool, countryCode: string)

  datatype UsersPage = UsersPage(total: int, users: seq<User>)

  datatype UserCreate = UserCreate(
    username: string,
    activeUserInbounds: seq<string>,
    status: string,
    trafficLimitStrategy: string,
    telegramId: int,
    expireAt: int,
    trafficLimitBytes: int)

  datatype UserUpdate = UserUpdate(uuid: string, expireAt: int, telegramId: int, status: string, trafficLimitBytes: int)

  /** The write a provisioning call sends to the panel. */
  datatype Request = CreateUser(create: UserCreate) | UpdateUser(update: UserUpdate)

  const Active: string := "ACTIVE"
  const MonthStrategy: string := "MONTH"

  function RequestFailure(code: int): Failure
  {
    Failure("request failed with status code: " + Text.IntToString(code), false, false)
  }

  /** GetUsers: one page of users; 404 is "no page" without error. */
  function GetUsers(reply: Reply<UsersPage>): (r: Result<Option<UsersPage>, ClientError>)
    ensures r == Ok(None) <==> reply.Response? && reply.code == StatusNotFound
    ensures r.Ok? && r.value.Some? <==> reply.Response? && reply.code == StatusOk && reply.body.Some?
    ensures r.Ok? && r.value.Some? ==> r.value.value == reply.body.value
    ensures reply.Response? && reply.code != StatusOk && reply.code != StatusNotFound ==> r == Err(Returned(StatusFailure(reply.code)))
  {
    match reply
    case NoResponse(_, _) => Err(Returned(Wrap("failed to execute request: ", reply.Cause())))
    case Response(code, body) =>
      if code == StatusNotFound then Ok(None)
      else if code != StatusOk then Err(Returned(StatusFailure(code)))
      else if body.None? then Err(Returned(DecodeFailure))
      else Ok(Some(body.value))
  }

  /** GetNodes: unlike the user lookups, 404 is an ordinary unexpected status. */
  function GetNodes(reply: Reply<seq<Node>>): (r: Result<seq<Node>, Failure>)
    ensures r.Ok? <==> reply.Response? && reply.code == StatusOk && reply.body.Some?
    ensures r.Ok? ==> r.value == reply.body.value
    ensures reply.Response? && reply.code != StatusOk ==> r == Err(StatusFailure(reply.code))
    ensures reply.NoResponse? ==> r.Err? && r.error.network && r.error.deadline == reply.deadline
  {
    match reply
    case NoResponse(_, _) => Err(Wrap("failed to execute request: ", reply.Cause()))
    case Response(code, body) =>
      if code != StatusOk then Err(StatusFailure(code))
      else if body.None? then Err(DecodeFailure)
      else Ok(body.value)
  }

  /**
   * GetUserByTelegramId: 404 means no such user (no error), any other status
   * but 200 is an error, and 200 yields the first user of the list. A 200 with
   * an empty list indexes past its end.
   */
  function GetUserByTelegramId(reply: Reply<seq<User>>): (r: Result<Option<User>, ClientError>)
    ensures r == Ok(None) <==> reply.Response? && reply.code == StatusNotFound
    ensures r.Ok? && r.value.Some? <==> reply.Response? && reply.code == StatusOk && reply.body.Some? && reply.body.value != []
    ensures r.Ok? && r.value.Some? ==> r.value.value == reply.body.value[0]
    ensures r.Err? && r.error.Panicked? <==> reply.Response? && reply.code == StatusOk && reply.body == Some([])
    ensures reply.Response? && reply.code != StatusOk && reply.code != StatusNotFound ==> r == Err(Returned(StatusFailure(reply.code)))
  {
    match reply
    case NoResponse(_, _) => Err(Returned(Wrap("failed to execute request: ", reply.Cause())))
    case Response(code, body) =>
      if code == StatusNotFound then Ok(None)
      else if code != StatusOk then Err(Returned(StatusFailure(code)))
      else if body.None? then Err(Returned(DecodeFailure))
      else if body.value == [] then Err(Panicked("index out of range"))
      else Ok(Some(body.value[0]))
  }

  /** isRetryableError: network errors, deadline exceeded, and the texts of statuses 500, 502, 503 and 504. */
  predicate IsRetryableError(f: Failure)
  {
    || f.network
    || f.deadline
    || f.message == "unexpected status code: 500"
    || f.message == "unexpected status code: 502"
    || f.message == "unexpected status code: 503"
    || f.message == "unexpected status code: 504"
  }

  lemma PrefixCancels(p: string, a: string, b: string)
    requires p + a == p + b
    ensures a == b
  {
    assert (p + a)[|p|..] == a;
    assert (p + b)[|p|..] == b;
  }

  /** Two status errors read alike exactly when their codes are the same. */
  lemma StatusTextsDiffer(code: int, other: int)
    ensures StatusFailure(code).message == StatusFailure(other).message <==> code == other
  {
    if StatusFailure(code).message == StatusFailure(other).message {
      PrefixCancels("unexpected status code: ", Text.IntToString(code), Text.IntToString(other));
      Text.IntToStringInjective(code, other);
    }
  }

  /** A status error is retried exactly for the gateway-side statuses 500, 502, 503 and 504. */
  lemma RetryableStatuses(code: int)
    ensures IsRetryableError(StatusFailure(code)) <==> code == 500 || code == 502 || code == 503 || code == 504
  {
    assert StatusFailure(500).message == "unexpected status code: 500" by { assert Text.IntToString(500) == "500"; }
    assert StatusFailure(502).message == "unexpected status code: 502" by { assert Text.IntToString(502) == "502"; }
    assert StatusFailure(503).message == "unexpected status code: 503" by { assert Text.IntToString(503) == "503"; }
    assert StatusFailure(504).message == "unexpected status code: 504" by { assert Text.IntToString(504) == "504"; }
    StatusTextsDiffer(code, 500);
    StatusTextsDiffer(code, 502);
    StatusTextsDiffer(code, 503);
    StatusTextsDiffer(code, 504);
  }

  /** A request that got no response is always retried, whatever its text: its error is a net.Error. */
  lemma TransportFailuresRetry(reply: Reply<seq<Node>>)
    requires reply.NoResponse?
    ensures GetNodes(reply).Err? && IsRetryableError(GetNodes(reply).error)
  {
  }

  /** The context as retryWithBackoff sees it: done before attempt k starts, or done during the wait after attempt k. */
  datatype Context = Context(doneBeforeAttempt: nat -> bool, doneDuringWait: nat -> bool)

  datatype RetryOutcome =
    | Succeeded
    | Canceled
    | CanceledDuringWait
    | NonRetryable(failure: Failure)
    | Exhausted(last: Option<Failure>)

  /** How a run ended, how many times `fn` was called, and the waits it started, in order. */
  datatype RetryRun = RetryRun(outcome: RetryOutcome, calls: nat, delays: seq<int>)

  /**
   * retryWithBackoff from attempt `attempt` on; `fn(k)` is what the k-th call
   * of fn returns (None for success) and `last` the error seen so far.
   */
  function RetryFrom(attempt: nat, maxAttempts: int, initialDelay: int, ctx: Context,
                     fn: nat -> Option<Failure>, isRetryable: Failure -> bool, last: Option<Failure>): RetryRun
    decreases maxAttempts - attempt
  {
    if attempt >= maxAttempts then RetryRun(Exhausted(last), attempt, [])
    else if ctx.doneBeforeAttempt(attempt) then RetryRun(Canceled, attempt, [])
    else
      match fn(attempt)
      case None => RetryRun(Succeeded, attempt + 1, [])
      case Some(f) =>
        if !isRetryable(f) then RetryRun(NonRetryable(f), attempt + 1, [])
        else if attempt < maxAttempts - 1 then
          var delay := initialDelay * Clock.Pow2(attempt);
          if ctx.doneDuringWait(attempt) then RetryRun(CanceledDuringWait, attempt + 1, [delay])
          else
            var rest := RetryFrom(attempt + 1, maxAttempts, initialDelay, ctx, fn, isRetryable, Some(f));
            rest.(delays := [delay] + rest.delays)
        else RetryFrom(attempt + 1, maxAttempts, initialDelay, ctx, fn, isRetryable, Some(f))
  }

  /**
   * The backoff policy: fn is called at most maxAttempts times; every call but
   * the last failed with a retryable error; success and a non-retryable error
   * end the run at once; the k-th wait is initialDelay·2^k; the last
   * attempt is never followed by a wait; an exhausted run made every call,
   * the last of which failed retryably and is the failure reported; and the
   * run is cancelled before the attempt that finds the context done, or
   * during the wait that follows a retryable failure, never after the last
   * attempt.
   */
  lemma {:induction false} RetryPolicy(attempt: nat, maxAttempts: int, initialDelay: int, ctx: Context,
                                       fn: nat -> Option<Failure>, isRetryable: Failure -> bool, last: Option<Failure>)
    ensures var r := RetryFrom(attempt, maxAttempts, initialDelay, ctx, fn, isRetryable, last);
      && attempt <= r.calls <= (if maxAttempts > attempt then maxAttempts else attempt)
      && |r.delays| <= r.calls - attempt
      && (forall k :: 0 <= k < |r.delays| ==> r.delays[k] == initialDelay * Clock.Pow2(attempt + k))
      && (forall k :: attempt <= k < r.calls - 1 ==> fn(k).Some? && isRetryable(fn(k).value))
      && (r.outcome.Succeeded? ==> r.calls > attempt && fn(r.calls - 1).None?)
      && (r.outcome.NonRetryable? ==> r.calls > attempt && fn(r.calls - 1) == Some(r.outcome.failure) && !isRetryable(r.outcome.failure))
      && (r.outcome.Exhausted? && maxAttempts > attempt ==>
            && r.calls == maxAttempts && |r.delays| == maxAttempts - attempt - 1
            && fn(maxAttempts - 1).Some? && isRetryable(fn(maxAttempts - 1).value)
            && r.outcome.last == fn(maxAttempts - 1))
      && (forall k :: attempt <= k < r.calls ==> !ctx.doneBeforeAttempt(k))
      && (r.outcome.Canceled? ==> r.calls < maxAttempts && ctx.doneBeforeAttempt(r.calls))
      && (r.outcome.CanceledDuringWait? ==>
            && attempt < r.calls < maxAttempts && ctx.doneDuringWait(r.calls - 1)
            && |r.delays| == r.calls - attempt)
    decreases maxAttempts - attempt
  {
    if attempt < maxAttempts && !ctx.doneBeforeAttempt(attempt) && fn(attempt).Some? && isRetryable(fn(attempt).value) {
      var f := fn(attempt).value;
      RetryPolicy(attempt + 1, maxAttempts, initialDelay, ctx, fn, isRetryable, Some(f));
    }
  }

  /** retryWithBackoff, attempt by attempt. */
  method RetryWithBackoff(maxAttempts: int, initialDelay: int, ctx: Context,
                          fn: nat -> Option<Failure>, isRetryable: Failure -> bool) returns (run: RetryRun)
    ensures run == RetryFrom(0, maxAttempts, initialDelay, ctx, fn, isRetryable, None)
  {
    var err: Option<Failure> := None;
    var delays: seq<int> := [];
    var attempt: nat := 0;
    while attempt < maxAttempts
      invariant var rest := RetryFrom(attempt, maxAttempts, initialDelay, ctx, fn, isRetryable, err);
        RetryFrom(0, maxAttempts, initialDelay, ctx, fn, isRetryable, None) == rest.(delays := delays + rest.delays)
      decreases maxAttempts - attempt
    {
      if ctx.doneBeforeAttempt(attempt) {
        return RetryRun(Canceled, attempt, delays);
      }
      err := fn(attempt);
      if err.None? {
        return RetryRun(Succeeded, attempt + 1, delays);
      }
      if !isRetryable(err.value) {
        return RetryRun(NonRetryable(err.value), attempt + 1, delays);
      }
      if attempt < maxAttempts - 1 {
        var delay := initialDelay * Clock.Pow2(attempt);
        ghost var rest := RetryFrom(attempt + 1, maxAttempts, initialDelay, ctx, fn, isRetryable, err);
        assert delays + ([delay] + rest.delays) == (delays + [delay]) + rest.delays;
        delays := delays + [delay];
        if ctx.doneDuringWait(attempt) {
          return RetryRun(CanceledDuringWait, attempt + 1, delays);
        }
      }
      attempt := attempt + 1;
    }
    return RetryRun(Exhausted(err), attempt, delays);
  }

  /** The inbounds whose UUID is configured, in their original order. */
  function Matching(all: seq<Inbound>, configured: set<string>): seq<Inbound>
  {
    if all == [] then []
    else
      var last := all[|all| - 1];
      Matching(all[..|all| - 1], configured) + (if last.uuid in configured then [last] else [])
  }

  lemma {:induction false} MatchingExact(all: seq<Inbound>, configured: set<string>)
    ensures forall i :: i in Matching(all, configured) <==> i in all && i.uuid in configured
    ensures |Matching(all, configured)| <= |all|
  {
    if all != [] {
      MatchingExact(all[..|all| - 1], configured);
      assert all == all[..|all| - 1] + [all[|all| - 1]];
    }
  }

  /** A single inbound is kept exactly when its UUID is configured. */
  lemma MatchingOne(x: Inbound, configured: set<string>)
    ensures Matching([x], configured) == if x.uuid in configured then [x] else []
  {
    assert [x][..0] == [];
  }

  /**
   * The filter works inbound by inbound: filtering two stretches of the list
   * one after the other is filtering their concatenation. With MatchingOne
   * this fixes the order and the repeats of the result, not just its members.
   */
  lemma {:induction false} MatchingAppend(xs: seq<Inbound>, ys: seq<Inbound>, configured: set<string>)
    ensures Matching(xs + ys, configured) == Matching(xs, configured) + Matching(ys, configured)
    decreases |ys|
  {
    if ys == [] {
      assert xs + ys == xs;
    } else {
      var zs := ys[..|ys| - 1];
      var all := xs + ys;
      assert all[..|all| - 1] == xs + zs;
      assert all[|all| - 1] == ys[|ys| - 1];
      MatchingAppend(xs, zs, configured);
    }
  }

  /** The inbounds a new user is given: the configured ones, or all of them when none are configured or none match. */
  function InboundSelection(all: seq<Inbound>, configured: set<string>): seq<Inbound>
  {
    if configured == {} then all
    else
      var m := Matching(all, configured);
      if m == [] then all else m
  }

  /**
   * getInbounds' filter: everything without a filter or without a match,
   * otherwise exactly the configured inbounds, which is the filter applied
   * inbound by inbound (MatchingOne, MatchingAppend): in the panel's order,
   * each kept as often as the panel lists it.
   */
  lemma InboundSelectionRule(all: seq<Inbound>, configured: set<string>)
    ensures configured == {} ==> InboundSelection(all, configured) == all
    ensures (forall i :: i in all ==> i.uuid !in configured) ==> InboundSelection(all, configured) == all
    ensures (exists i :: i in all && i.uuid in configured) ==>
      && InboundSelection(all, configured) == Matching(all, configured)
      && forall i :: i in InboundSelection(all, configured) <==> i in all && i.uuid in configured
  {
    MatchingExact(all, configured);
    var m := Matching(all, configured);
    assert m == [] || m[0] in m;
  }

  /** The filtering loops of getInbounds. */
  method FilterInbounds(all: seq<Inbound>, configured: set<string>) returns (r: seq<Inbound>)
    ensures r == InboundSelection(all, configured)
  {
    if |configured| == 0 {
      return all;
    }
    var filtered: seq<Inbound> := [];
    var i := 0;
    while i < |all|
      invariant 0 <= i <= |all|
      invariant filtered == Matching(all[..i], configured)
    {
      assert all[..i + 1][..i] == all[..i];
      if all[i].uuid in configured {
        filtered := filtered + [all[i]];
      }
      i := i + 1;
    }
    assert all[..i] == all;
    if |filtered| == 0 {
      return all;
    }
    r := filtered;
  }

  /**
   * getInbounds: a missing response is dereferenced (panic), a non-200 status
   * or a body that does not decode gives nil, and otherwise the selection.
   */
  function GetInbounds(reply: Reply<seq<Inbound>>, configured: set<string>): Result<Option<seq<Inbound>>, ClientError>
  {
    match reply
    case NoResponse(_, _) => Err(Panicked("nil response"))
    case Response(code, body) =>
      if code != StatusOk || body.None? then Ok(None)
      else Ok(Some(InboundSelection(body.value, configured)))
  }

  method FetchInbounds(reply: Reply<seq<Inbound>>, configured: set<string>) returns (r: Result<Option<seq<Inbound>>, ClientError>)
    ensures r == GetInbounds(reply, configured)
  {
    if reply.NoResponse? {
      return Err(Panicked("nil response"));
    }
    if reply.code != StatusOk || reply.body.None? {
      return Ok(None);
    }
    var selected := FilterInbounds(reply.body.value, configured);
    r := Ok(Some(selected));
  }

  function UuidsOf(inbounds: seq<Inbound>): (ids: seq<string>)
    ensures |ids| == |inbounds| && forall k :: 0 <= k < |inbounds| ==> ids[k] == inbounds[k].uuid
  {
    if inbounds == [] then [] else UuidsOf(inbounds[..|inbounds| - 1]) + [inbounds[|inbounds| - 1].uuid]
  }

  /** The copy of inbound UUIDs into `inboundsId` in createUser. */
  method CollectInboundIds(inbounds: seq<Inbound>) returns (ids: seq<string>)
    ensures ids == UuidsOf(inbounds)
  {
    ids := [];
    var i := 0;
    while i < |inbounds|
      invariant 0 <= i <= |inbounds|
      invariant ids == UuidsOf(inbounds[..i])
    {
      assert inbounds[..i + 1][..i] == inbounds[..i];
      ids := ids + [inbounds[i].uuid];
      i := i + 1;
    }
    assert inbounds[..i] == inbounds;
  }

  /** generateUsername: `<customerId>_<telegramId>`. */
  function GenerateUsername(customerId: int, telegramId: int): string
  {
    Text.IntToString(customerId) + "_" + Text.IntToString(telegramId)
  }

  /** The username splits at its only '_' back into the two ids, so distinct pairs get distinct names. */
  lemma UsernameRoundTrip(customerId: int, telegramId: int)
    ensures var parts := Text.Cut(GenerateUsername(customerId, telegramId), '_');
      && parts == Some((Text.IntToString(customerId), Text.IntToString(telegramId)))
      && Text.ParseInt(parts.value.0) == Some(customerId)
      && Text.ParseInt(parts.value.1) == Some(telegramId)
  {
    Text.IntToStringHasNo(customerId, '_');
    Text.CutAfterPrefix(Text.IntToString(customerId), Text.IntToString(telegramId), '_');
    Text.ParseIntRoundTrip(customerId);
    Text.ParseIntRoundTrip(telegramId);
  }

  lemma UsernameInjective(c1: int, t1: int, c2: int, t2: int)
    ensures GenerateUsername(c1, t1) == GenerateUsername(c2, t2) ==> c1 == c2 && t1 == t2
  {
    UsernameRoundTrip(c1, t1);
    UsernameRoundTrip(c2, t2);
  }

  /** getNewExpire: the days are added to the user's expiry when it is set (even in the past), otherwise to now. */
  function GetNewExpire(days: int, existing: User, now: int): int
  {
    if existing.expireAt == 0 then Clock.AddDays(now, days) else Clock.AddDays(existing.expireAt, days)
  }

  /** An expiry that is set is extended independently of the clock, and two extensions add up to one. */
  lemma ExtensionsAdd(a: int, b: int, u: User, now: int, later: int)
    ensures u.expireAt != 0 ==> GetNewExpire(a, u, now) == GetNewExpire(a, u, later) == u.expireAt + a * Clock.Day
    ensures u.expireAt == 0 ==> GetNewExpire(a, u, now) == now + a * Clock.Day
    ensures GetNewExpire(a, u, now) != 0 ==>
      GetNewExpire(b, u.(expireAt := GetNewExpire(a, u, now)), later) == GetNewExpire(a + b, u, now)
  {
    assert a * Clock.Day + b * Clock.Day == (a + b) * Clock.Day;
  }

  /** createUser's payload. */
  function NewUserRequest(customerId: int, telegramId: int, trafficLimit: int, days: int, now: int, inbounds: seq<Inbound>): UserCreate
  {
    UserCreate(GenerateUsername(customerId, telegramId), UuidsOf(inbounds), Active, MonthStrategy,
               telegramId, Clock.AddDays(now, days), trafficLimit)
  }

  /** updateUser's payload for a user whose telegram id is already set. */
  function RenewalRequest(existing: User, telegramId: int, trafficLimit: int, days: int, now: int): UserUpdate
  {
    UserUpdate(existing.uuid, GetNewExpire(days, existing, now), telegramId, Active, trafficLimit)
  }

  /** The answer to a write: `expected` is 201 for a create and 200 for an update. */
  function WriteAnswer(reply: Reply<User>, expected: int): Result<User, ClientError>
  {
    match reply
    case NoResponse(_, _) => Err(Returned(reply.Cause()))
    case Response(code, body) =>
      if code != expected then Err(Returned(RequestFailure(code)))
      else if body.None? then Err(Returned(DecodeFailure))
      else Ok(body.value)
  }

  /** What a provisioning call sent to the panel (if anything) and what it returned. */
  datatype Provision = Provision(sent: Option<Request>, result: Result<User, ClientError>)

  /** The whole of CreateOrUpdateUser, from the answers the panel gives. */
  function Provisioned(customerId: int, telegramId: int, trafficLimit: int, days: int, now: int, configured: set<string>,
                       lookup: Reply<seq<User>>, inbounds: Reply<seq<Inbound>>, write: Reply<User>): Provision
  {
    match GetUserByTelegramId(lookup)
    case Err(e) => Provision(None, Err(e))
    case Ok(None) =>
      (match GetInbounds(inbounds, configured)
       case Err(e) => Provision(None, Err(e))
       case Ok(None) => Provision(None, Err(Panicked("nil dereference")))
       case Ok(Some(ins)) =>
         Provision(Some(CreateUser(NewUserRequest(customerId, telegramId, trafficLimit, days, now, ins))),
                   WriteAnswer(write, StatusCreated)))
    case Ok(Some(u)) =>
      var tg := if u.telegramId.None? then telegramId else u.telegramId.value;
      Provision(Some(UpdateUser(RenewalRequest(u, tg, trafficLimit, days, now))), WriteAnswer(write, StatusOk))
  }

  /**
   * CreateOrUpdateUser: a failed lookup sends nothing; no user found means a
   * create request for a new ACTIVE, monthly-reset user named
   * `<customerId>_<telegramId>` expiring `days` from now with the selected
   * inbounds; a user found means an update of that user extending its expiry,
   * keeping its telegram id or filling in the given one. Nothing succeeds
   * without a request having been sent.
   */
  lemma ProvisionRules(customerId: int, telegramId: int, trafficLimit: int, days: int, now: int, configured: set<string>,
                       lookup: Reply<seq<User>>, inbounds: Reply<seq<Inbound>>, write: Reply<User>)
    ensures var p := Provisioned(customerId, telegramId, trafficLimit, days, now, configured, lookup, inbounds, write);
      && (GetUserByTelegramId(lookup).Err? ==> p.sent.None? && p.result.Err?)
      && (p.result.Ok? ==> p.sent.Some?)
      && (p.sent.Some? && p.sent.value.CreateUser? <==>
            lookup.Response? && lookup.code == StatusNotFound && inbounds.Response? && inbounds.code == StatusOk && inbounds.body.Some?)
      && (p.sent.Some? && p.sent.value.CreateUser? ==>
            var c := p.sent.value.create;
            && c.username == GenerateUsername(customerId, telegramId)
            && c.status == Active && c.trafficLimitStrategy == MonthStrategy
            && c.telegramId == telegramId && c.trafficLimitBytes == trafficLimit
            && c.expireAt == now + days * Clock.Day
            && c.activeUserInbounds == UuidsOf(InboundSelection(inbounds.body.value, configured)))
      && (p.sent.Some? && p.sent.value.UpdateUser? <==> GetUserByTelegramId(lookup).Ok? && GetUserByTelegramId(lookup).value.Some?)
      && (p.sent.Some? && p.sent.value.UpdateUser? ==>
            var found := GetUserByTelegramId(lookup).value.value;
            var u := p.sent.value.update;
            && u.uuid == found.uuid
            && u.telegramId == (if found.telegramId.Some? then found.telegramId.value else telegramId)
            && u.status == Active && u.trafficLimitBytes == trafficLimit
            && u.expireAt == GetNewExpire(days, found, now))
      && (p.sent.Some? ==> p.result == WriteAnswer(write, if p.sent.value.CreateUser? then StatusCreated else StatusOk))
  {
  }

  /** A create is never sent when the inbound list cannot be fetched: createUser panics instead. */
  lemma CreateNeedsInbounds(customerId: int, telegramId: int, trafficLimit: int, days: int, now: int, configured: set<string>,
                            lookup: Reply<seq<User>>, inbounds: Reply<seq<Inbound>>, write: Reply<User>)
    requires lookup.Response? && lookup.code == StatusNotFound
    requires !(inbounds.Response? && inbounds.code == StatusOk && inbounds.body.Some?)
    ensures var p := Provisioned(customerId, telegramId, trafficLimit, days, now, configured, lookup, inbounds, write);
      p.sent.None? && p.result.Err? && p.result.error.Panicked?
  {
  }

  /** CreateOrUpdateUser, step by step: lookup, then create (after fetching inbounds) or update. */
  method CreateOrUpdateUser(customerId: int, telegramId: int, trafficLimit: int, days: int, now: int, configured: set<string>,
                            lookup: Reply<seq<User>>, inbounds: Reply<seq<Inbound>>, write: Reply<User>)
    returns (sent: Option<Request>, result: Result<User, ClientError>)
    ensures Provision(sent, result) == Provisioned(customerId, telegramId, trafficLimit, days, now, configured, lookup, inbounds, write)
  {
    var existing := GetUserByTelegramId(lookup);
    if existing.Err? {
      return None, Err(existing.error);
    }
    if existing.value.None? {
      var fetched := FetchInbounds(inbounds, configured);
      if fetched.Err? {
        return None, Err(fetched.error);
      }
      if fetched.value.None? {
        return None, Err(Panicked("nil dereference"));
      }
      var ids := CollectInboundIds(fetched.value.value);
      var create := UserCreate(GenerateUsername(customerId, telegramId), ids, Active, MonthStrategy,
                               telegramId, Clock.AddDays(now, days), trafficLimit);
      sent := Some(CreateUser(create));
      result := WriteAnswer(write, StatusCreated);
    } else {
      var user := existing.value.value;
      if user.telegramId.None? {
        user := user.(telegramId := Some(telegramId));
      }
      var update := UserUpdate(user.uuid, GetNewExpire(days, user, now), user.telegramId.value, Active, trafficLimit);
      sent := Some(UpdateUser(update));
      result := WriteAnswer(write, StatusOk);
    }
  }
}

/**
 * The panel-to-directory synchronisation (internal/sync/sync.go): users are
 * read from the panel a page at a time, those linked to a Telegram account
 * are mapped to customers, and each page's customers are split into those to
 * create and those to update.
 *
 * The answer of a sync is the list of calls it makes, in order. The panel's
 * page replies are inputs keyed by the page's offset; the batch lookup, create
 * and update of the customer directory are not part of this model, so the
 * lookup's answer (the Telegram ids it found) is an input too. `now` stands
 * for every reading of the clock during one sync. The panel decides when the
 * paging ends, so the number of pages a sync may read is bounded by `fuel`.
 */
module DirectorySync {
  import opened Wrappers
  import Http
  import C = Customers
  import Remnawave

  const PageSize: int := 100

  datatype Call =
    | GetUsers(size: int, start: int)
    | FindByTelegramIds(telegramIds: seq<int>)
    | CreateBatch(toCreate: seq<C.Customer>)
    | UpdateBatch(toUpdate: seq<C.Customer>)

  /** mapUserToCustomer: only the Telegram id, the expiry and the subscription URL are set. */
  function MapUserToCustomer(user: Remnawave.User): (c: C.Customer)
    requires user.telegramId.Some?
    ensures c.telegramId == user.telegramId.value
    ensures c.expireAt == Some(user.expireAt) && c.subscriptionLink == Some(user.subscriptionUrl)
    ensures c.id == 0 && c.createdAt == 0 && c.language == ""
  {
    C.Customer(0, user.telegramId.value, Some(user.expireAt), 0, Some(user.subscriptionUrl), "")
  }

  /** The customers of a page's users that have a Telegram id, in order. */
  function Mapped(users: seq<Remnawave.User>): seq<C.Customer>
    decreases |users|
  {
    if users == [] then []
    else
      var n := |users| - 1;
      Mapped(users[..n]) + (if users[n].telegramId.Some? then [MapUserToCustomer(users[n])] else [])
  }

  /** Users without a Telegram id are skipped; every other user gives its customer. */
  lemma {:induction false} MappedExact(users: seq<Remnawave.User>)
    ensures forall c :: c in Mapped(users) <==> exists u :: u in users && u.telegramId.Some? && c == MapUserToCustomer(u)
    ensures (forall u :: u in users ==> u.telegramId.None?) ==> Mapped(users) == []
    decreases |users|
  {
    if users != [] {
      var n := |users| - 1;
      MappedExact(users[..n]);
      assert users == users[..n] + [users[n]];
    }
  }

  function TelegramIds(customers: seq<C.Customer>): (ids: seq<int>)
    ensures |ids| == |customers| && forall k :: 0 <= k < |customers| ==> ids[k] == customers[k].telegramId
  {
    seq(|customers|, k requires 0 <= k < |customers| => customers[k].telegramId)
  }

  /** The create/update split of a page's customers: those already known are updated, with the current time. */
  function Partition(mapped: seq<C.Customer>, existing: set<int>, now: int): (seq<C.Customer>, seq<C.Customer>)
    decreases |mapped|
  {
    if mapped == [] then ([], [])
    else
      var n := |mapped| - 1;
      var (toCreate, toUpdate) := Partition(mapped[..n], existing, now);
      var c := mapped[n];
      if c.telegramId in existing then (toCreate, toUpdate + [c.(createdAt := now)]) else (toCreate + [c], toUpdate)
  }

  /**
   * Every mapped customer lands in exactly one list: in the update list (with
   * its creation time set to now) when its Telegram id is already stored, and
   * in the create list otherwise.
   */
  lemma {:induction false} PartitionExact(mapped: seq<C.Customer>, existing: set<int>, now: int)
    ensures var (toCreate, toUpdate) := Partition(mapped, existing, now);
      && |toCreate| + |toUpdate| == |mapped|
      && (forall c :: c in toCreate <==> c in mapped && c.telegramId !in existing)
      && (forall c :: c in toUpdate <==> exists d :: d in mapped && d.telegramId in existing && c == d.(createdAt := now))
    decreases |mapped|
  {
    if mapped != [] {
      var n := |mapped| - 1;
      PartitionExact(mapped[..n], existing, now);
      assert mapped == mapped[..n] + [mapped[n]];
    }
  }

  /** The batch calls of a page: each only when its list is non-empty, create before update. */
  function Batches(toCreate: seq<C.Customer>, toUpdate: seq<C.Customer>): seq<Call>
  {
    (if |toCreate| > 0 then [CreateBatch(toCreate)] else []) + (if |toUpdate| > 0 then [UpdateBatch(toUpdate)] else [])
  }

  /** What reading one page leads to: its calls, and the offset of the next page when the sync goes on. */
  datatype Step = Step(calls: seq<Call>, next: Option<int>)

  /** One iteration of Sync's loop, at offset `start`. */
  function PageStep(start: int, reply: Http.Reply<Remnawave.UsersPage>, lookup: seq<int> -> Result<set<int>, string>, now: int): Step
  {
    var request := [GetUsers(PageSize, start)];
    match Remnawave.GetUsers(reply)
    case Err(_) => Step(request, None)
    case Ok(None) => Step(request, None)
    case Ok(Some(page)) =>
      if page.users == [] then Step(request, None)
      else
        var mapped := Mapped(page.users);
        var ids := TelegramIds(mapped);
        var found := [FindByTelegramIds(ids)];
        match lookup(ids)
        case Err(_) => Step(request + found, None)
        case Ok(existing) =>
          var (toCreate, toUpdate) := Partition(mapped, existing, now);
          var next := start + |page.users|;
          Step(request + found + Batches(toCreate, toUpdate), if next >= page.total then None else Some(next))
  }

  predicate BatchesNonEmpty(calls: seq<Call>)
  {
    forall k :: 0 <= k < |calls| ==>
      (calls[k].CreateBatch? ==> calls[k].toCreate != []) && (calls[k].UpdateBatch? ==> calls[k].toUpdate != [])
  }

  /**
   * One page: a single request for 100 users at the offset, then the lookup
   * and the non-empty batches; a page that cannot be read, or is missing or
   * empty, ends the sync; the next offset is past the users just read and
   * below the page's total.
   */
  lemma PageStepRules(start: int, reply: Http.Reply<Remnawave.UsersPage>, lookup: seq<int> -> Result<set<int>, string>, now: int)
    ensures var s := PageStep(start, reply, lookup, now);
      && s.calls[0] == GetUsers(PageSize, start)
      && (forall k :: 1 <= k < |s.calls| ==> !s.calls[k].GetUsers?)
      && BatchesNonEmpty(s.calls)
      && (Remnawave.GetUsers(reply).Err? ==> s == Step([GetUsers(PageSize, start)], None))
      && (s.next.Some? ==>
            var page := Remnawave.GetUsers(reply).value.value;
            s.next.value == start + |page.users| > start && s.next.value < page.total)
  {
  }

  /** Sync from offset `start`, reading at most `fuel` pages. */
  function SyncFrom(start: int, fuel: nat, replies: int -> Http.Reply<Remnawave.UsersPage>,
                    lookup: seq<int> -> Result<set<int>, string>, now: int): seq<Call>
    decreases fuel, 0
  {
    if fuel == 0 then [] else PageThenRest(start, fuel - 1, replies, lookup, now)
  }

  /** The calls of the page at `start`, then those of at most `fuel` pages after it. */
  function PageThenRest(start: int, fuel: nat, replies: int -> Http.Reply<Remnawave.UsersPage>,
                        lookup: seq<int> -> Result<set<int>, string>, now: int): seq<Call>
    decreases fuel, 1
  {
    var s := PageStep(start, replies(start), lookup, now);
    if s.next.None? then s.calls else s.calls + SyncFrom(s.next.value, fuel, replies, lookup, now)
  }

  /** The calls made so far, followed by those of at most `fuel` pages from `start`, are the whole sync `total`. */
  predicate Leaves(total: seq<Call>, calls: seq<Call>, start: int, fuel: nat, replies: int -> Http.Reply<Remnawave.UsersPage>,
                   lookup: seq<int> -> Result<set<int>, string>, now: int)
  {
    total == calls + SyncFrom(start, fuel, replies, lookup, now)
  }

  /** One turn of Sync's loop, in terms of what is still to come. */
  lemma SyncTurn(total: seq<Call>, calls: seq<Call>, start: int, fuel: nat, step: Step,
                 replies: int -> Http.Reply<Remnawave.UsersPage>, lookup: seq<int> -> Result<set<int>, string>, now: int)
    requires fuel > 0 && step == PageStep(start, replies(start), lookup, now)
    requires Leaves(total, calls, start, fuel, replies, lookup, now)
    ensures step.next.None? ==> total == calls + step.calls
    ensures step.next.Some? ==> Leaves(total, calls + step.calls, step.next.value, fuel - 1, replies, lookup, now)
  {
    assert SyncFrom(start, fuel, replies, lookup, now) == PageThenRest(start, fuel - 1, replies, lookup, now);
    if step.next.Some? {
      var rest := SyncFrom(step.next.value, fuel - 1, replies, lookup, now);
      assert calls + (step.calls + rest) == (calls + step.calls) + rest;
    }
  }

  /** Every request reads a full page at an offset of at least `start`. */
  predicate ReadsFrom(calls: seq<Call>, start: int)
  {
    forall k :: 0 <= k < |calls| && calls[k].GetUsers? ==> calls[k].size == PageSize && calls[k].start >= start
  }

  /** The offsets requested strictly increase. */
  predicate OffsetsIncrease(calls: seq<Call>)
  {
    forall i, j :: 0 <= i < j < |calls| && calls[i].GetUsers? && calls[j].GetUsers? ==> calls[i].start < calls[j].start
  }

  /** A page's calls, whose only request is its first call, followed by the calls of the pages past it. */
  lemma PagesChain(page: seq<Call>, rest: seq<Call>, start: int, next: int)
    requires |page| > 0 && page[0] == GetUsers(PageSize, start) && forall k :: 1 <= k < |page| ==> !page[k].GetUsers?
    requires BatchesNonEmpty(page) && start < next
    requires ReadsFrom(rest, next) && OffsetsIncrease(rest) && BatchesNonEmpty(rest)
    ensures var calls := page + rest;
      calls[0] == GetUsers(PageSize, start) && ReadsFrom(calls, start) && OffsetsIncrease(calls) && BatchesNonEmpty(calls)
  {
    var calls := page + rest;
    assert forall k :: |page| <= k < |calls| ==> calls[k] == rest[k - |page|];
    assert forall k :: 0 <= k < |page| ==> calls[k] == page[k];
  }

  /**
   * Paging: the first request reads 100 users at the given offset; the
   * offsets requested strictly increase, so no page is read twice; a batch
   * call is made only for a non-empty list.
   */
  lemma {:induction false} SyncPaging(start: int, fuel: nat, replies: int -> Http.Reply<Remnawave.UsersPage>,
                                      lookup: seq<int> -> Result<set<int>, string>, now: int)
    ensures var calls := SyncFrom(start, fuel, replies, lookup, now);
      && (fuel > 0 ==> |calls| > 0 && calls[0] == GetUsers(PageSize, start))
      && ReadsFrom(calls, start)
      && OffsetsIncrease(calls)
      && BatchesNonEmpty(calls)
    decreases fuel
  {
    if fuel > 0 {
      assert SyncFrom(start, fuel, replies, lookup, now) == PageThenRest(start, fuel - 1, replies, lookup, now);
      var s := PageStep(start, replies(start), lookup, now);
      PageStepRules(start, replies(start), lookup, now);
      if s.next.Some? {
        SyncPaging(s.next.value, fuel - 1, replies, lookup, now);
        PagesChain(s.calls, SyncFrom(s.next.value, fuel - 1, replies, lookup, now), start, s.next.value);
      } else {
        PagesChain(s.calls, [], start, start + 1);
      }
    }
  }

  /** The mapping loop of one page. */
  method MapUsers(users: seq<Remnawave.User>) returns (ids: seq<int>, mapped: seq<C.Customer>)
    ensures mapped == Mapped(users) && ids == TelegramIds(mapped)
  {
    ids, mapped := [], [];
    var i := 0;
    while i < |users|
      invariant 0 <= i <= |users|
      invariant mapped == Mapped(users[..i]) && ids == TelegramIds(mapped)
    {
      assert users[..i + 1][..i] == users[..i];
      var user := users[i];
      if user.telegramId.Some? {
        var customer := MapUserToCustomer(user);
        ids := ids + [customer.telegramId];
        mapped := mapped + [customer];
      }
      i := i + 1;
    }
    assert users[..i] == users;
  }

  /** The split loop of one page. */
  method Split(mapped: seq<C.Customer>, existing: set<int>, now: int) returns (toCreate: seq<C.Customer>, toUpdate: seq<C.Customer>)
    ensures (toCreate, toUpdate) == Partition(mapped, existing, now)
  {
    toCreate, toUpdate := [], [];
    var i := 0;
    while i < |mapped|
      invariant 0 <= i <= |mapped|
      invariant (toCreate, toUpdate) == Partition(mapped[..i], existing, now)
    {
      assert mapped[..i + 1][..i] == mapped[..i];
      var customer := mapped[i];
      if customer.telegramId in existing {
        toUpdate := toUpdate + [customer.(createdAt := now)];
      } else {
        toCreate := toCreate + [customer];
      }
      i := i + 1;
    }
    assert mapped[..i] == mapped;
  }

  /** One iteration of Sync's loop. */
  method ReadPage(start: int, reply: Http.Reply<Remnawave.UsersPage>, lookup: seq<int> -> Result<set<int>, string>, now: int)
    returns (s: Step)
    ensures s == PageStep(start, reply, lookup, now)
  {
    var request := [GetUsers(PageSize, start)];
    var response := Remnawave.GetUsers(reply);
    if response.Err? || response.value.None? || |response.value.value.users| == 0 {
      return Step(request, None);
    }
    var page := response.value.value;
    var ids, mapped := MapUsers(page.users);
    var found := [FindByTelegramIds(ids)];
    var existing := lookup(ids);
    if existing.Err? {
      return Step(request + found, None);
    }
    var toCreate, toUpdate := Split(mapped, existing.value, now);
    var next := start + |page.users|;
    s := Step(request + found + Batches(toCreate, toUpdate), if next >= page.total then None else Some(next));
  }

  /** Sync, page by page. */
  method Sync(fuel: nat, replies: int -> Http.Reply<Remnawave.UsersPage>, lookup: seq<int> -> Result<set<int>, string>, now: int)
    returns (calls: seq<Call>)
    ensures calls == SyncFrom(0, fuel, replies, lookup, now)
  {
    calls := [];
    var start := 0;
    var pages := fuel;
    ghost var total := SyncFrom(0, fuel, replies, lookup, now);
    assert Leaves(total, calls, start, pages, replies, lookup, now);
    while pages > 0
      invariant Leaves(total, calls, start, pages, replies, lookup, now)
      decreases pages
    {
      var step := ReadNextPage(total, calls, start, pages, replies, lookup, now);
      if step.next.None? {
        return calls + step.calls;
      }
      calls := calls + step.calls;
      start := step.next.value;
      pages := pages - 1;
    }
    NoPagesLeft(total, calls, start, replies, lookup, now);
  }

  /** With no page left to read, the calls made so far are the whole sync. */
  lemma NoPagesLeft(total: seq<Call>, calls: seq<Call>, start: int, replies: int -> Http.Reply<Remnawave.UsersPage>,
                    lookup: seq<int> -> Result<set<int>, string>, now: int)
    requires Leaves(total, calls, start, 0, replies, lookup, now)
    ensures total == calls
  {
    assert calls + [] == calls;
  }

  /** A turn of Sync's loop: the page at `start` read, with what its calls leave still to come. */
  method ReadNextPage(ghost total: seq<Call>, ghost calls: seq<Call>, start: int, pages: nat,
                      replies: int -> Http.Reply<Remnawave.UsersPage>, lookup: seq<int> -> Result<set<int>, string>, now: int)
    returns (step: Step)
    requires pages > 0 && Leaves(total, calls, start, pages, replies, lookup, now)
    ensures step.next.None? ==> total == calls + step.calls
    ensures step.next.Some? ==> Leaves(total, calls + step.calls, step.next.value, pages - 1, replies, lookup, now)
  {
    step := ReadPage(start, replies(start), lookup, now);
    SyncTurn(total, calls, start, pages, step, replies, lookup, now);
  }
}

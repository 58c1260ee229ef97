/**
 * The customer directory (internal/database/customer.go), held in memory like
 * the purchase table: rows with serial ids 1, 2, 3, …, never deleted; a failing
 * database is modelled on inserts only.
 */
module Customers {
  import opened Wrappers

  datatype Customer = Customer(
    id: int,
    telegramId: int,
    expireAt: Option<int>,
    createdAt: int,
    subscriptionLink: Option<string>,
    language: string)

  datatype Update =
    | SetSubscriptionLink(link: string)
    | SetExpireAt(expireAt: int)
    | SetLanguage(language: string)

  function Apply(c: Customer, u: Update): Customer
  {
    match u
    case SetSubscriptionLink(link) => c.(subscriptionLink := Some(link))
    case SetExpireAt(t) => c.(expireAt := Some(t))
    case SetLanguage(l) => c.(language := l)
  }

  function ApplyAll(c: Customer, us: seq<Update>): Customer
  {
    if us == [] then c else Apply(ApplyAll(c, us[..|us| - 1]), us[|us| - 1])
  }

  /** A partial update never changes the id, the Telegram id or the creation time, and leaves alone every column it does not name. */
  lemma {:induction false} UpdatesChangeOnlyNamedColumns(c: Customer, us: seq<Update>)
    ensures var d := ApplyAll(c, us);
      && d.id == c.id && d.telegramId == c.telegramId && d.createdAt == c.createdAt
      && ((forall k :: 0 <= k < |us| ==> !us[k].SetSubscriptionLink?) ==> d.subscriptionLink == c.subscriptionLink)
      && ((forall k :: 0 <= k < |us| ==> !us[k].SetExpireAt?) ==> d.expireAt == c.expireAt)
      && ((forall k :: 0 <= k < |us| ==> !us[k].SetLanguage?) ==> d.language == c.language)
  {
    if us != [] {
      UpdatesChangeOnlyNamedColumns(c, us[..|us| - 1]);
    }
  }

  lemma ApplyPair(c: Customer, u: Update, v: Update)
    ensures ApplyAll(c, [u, v]) == Apply(Apply(c, u), v)
  {
    assert [u, v][..1] == [u];
    assert [u][..0] == [];
    assert ApplyAll(c, [u]) == Apply(ApplyAll(c, []), u);
    assert ApplyAll(c, [u, v]) == Apply(ApplyAll(c, [u]), v);
  }

  predicate WellKeyed(rows: seq<Customer>)
  {
    forall i :: 0 <= i < |rows| ==> rows[i].id == i + 1
  }

  function Find(rows: seq<Customer>, id: int): Option<Customer>
  {
    if 1 <= id <= |rows| then Some(rows[id - 1]) else None
  }

  lemma FindMeansRowWithId(rows: seq<Customer>, id: int, c: Customer)
    requires WellKeyed(rows)
    ensures Find(rows, id) == Some(c) <==> c in rows && c.id == id
    ensures Find(rows, id).None? <==> forall d :: d in rows ==> d.id != id
  {
    if c in rows && c.id == id {
      var i :| 0 <= i < |rows| && rows[i] == c;
    }
    if Find(rows, id).None? {
      forall d | d in rows
        ensures d.id != id
      {
        var i :| 0 <= i < |rows| && rows[i] == d;
      }
    }
  }

  /** The customer with that Telegram id, as FindByTelegramId returns it: `language` is not selected and stays empty. */
  function FindTelegram(rows: seq<Customer>, telegramId: int): Option<Customer>
  {
    if rows == [] then None
    else if rows[0].telegramId == telegramId then Some(rows[0].(language := ""))
    else FindTelegram(rows[1..], telegramId)
  }

  /** FindByTelegramId matches on the Telegram id, answers absence when no row matches, and never loads the language. */
  lemma {:induction false} FindTelegramMatches(rows: seq<Customer>, telegramId: int)
    ensures FindTelegram(rows, telegramId).None? <==> forall c :: c in rows ==> c.telegramId != telegramId
    ensures FindTelegram(rows, telegramId).Some? ==>
      && FindTelegram(rows, telegramId).value.telegramId == telegramId
      && FindTelegram(rows, telegramId).value.language == ""
      && exists c :: c in rows && c.telegramId == telegramId && FindTelegram(rows, telegramId).value == c.(language := "")
  {
    if rows != [] {
      FindTelegramMatches(rows[1..], telegramId);
      assert forall c :: c in rows <==> c == rows[0] || c in rows[1..];
    }
  }

  predicate ExpiresWithin(c: Customer, start: int, end: int)
  {
    c.expireAt.Some? && start <= c.expireAt.value <= end
  }

  /** The customers whose expiry is set and lies in [start, end], in table order. */
  function InRange(rows: seq<Customer>, start: int, end: int): seq<Customer>
  {
    if rows == [] then []
    else
      var last := rows[|rows| - 1];
      InRange(rows[..|rows| - 1], start, end) + (if ExpiresWithin(last, start, end) then [last] else [])
  }

  /** FindByExpirationRange returns exactly the customers with a non-null expiry between the two bounds, both included. */
  lemma {:induction false} InRangeExact(rows: seq<Customer>, start: int, end: int)
    ensures forall c :: c in InRange(rows, start, end) <==> c in rows && c.expireAt.Some? && start <= c.expireAt.value <= end
  {
    if rows != [] {
      InRangeExact(rows[..|rows| - 1], start, end);
      assert rows == rows[..|rows| - 1] + [rows[|rows| - 1]];
    }
  }

  /** Ids of distinct rows of a well-keyed table differ, and a range query keeps that. */
  lemma {:induction false} InRangeDistinctIds(rows: seq<Customer>, start: int, end: int)
    requires WellKeyed(rows)
    ensures forall i, j :: 0 <= i < j < |InRange(rows, start, end)| ==> InRange(rows, start, end)[i].id < InRange(rows, start, end)[j].id
    ensures forall c :: c in InRange(rows, start, end) ==> 1 <= c.id <= |rows|
  {
    if rows != [] {
      var init := rows[..|rows| - 1];
      InRangeDistinctIds(init, start, end);
      InRangeExact(init, start, end);
      forall c | c in InRange(init, start, end)
        ensures c.id <= |init|
      {
        var i :| 0 <= i < |init| && init[i] == c;
      }
    }
  }

  function Updated(rows: seq<Customer>, id: int, us: seq<Update>): seq<Customer>
  {
    if us == [] || Find(rows, id).None? then rows else rows[id - 1 := ApplyAll(rows[id - 1], us)]
  }

  /** UpdateFields touches only the row with that id, and an empty update or a missing id changes nothing. */
  lemma UpdatedFrame(rows: seq<Customer>, id: int, us: seq<Update>)
    requires WellKeyed(rows)
    ensures WellKeyed(Updated(rows, id, us))
    ensures |Updated(rows, id, us)| == |rows|
    ensures forall i :: 0 <= i < |rows| && i != id - 1 ==> Updated(rows, id, us)[i] == rows[i]
    ensures us == [] ==> Updated(rows, id, us) == rows
    ensures Find(rows, id).None? ==> Updated(rows, id, us) == rows
  {
    if us != [] && Find(rows, id).Some? {
      UpdatesChangeOnlyNamedColumns(rows[id - 1], us);
    }
  }

  /** The row Create inserts: only the Telegram id, expiry and language are taken; the link starts null. */
  function Inserted(c: Customer, id: int, now: int): (r: Customer)
  {
    Customer(id, c.telegramId, c.expireAt, now, None, c.language)
  }

  /** A created customer can be found by its new id, with the given Telegram id, expiry and language and no link. */
  lemma CreateThenFind(rows: seq<Customer>, c: Customer, now: int)
    requires WellKeyed(rows)
    ensures Find(rows, |rows| + 1).None?
    ensures WellKeyed(rows + [Inserted(c, |rows| + 1, now)])
    ensures var d := Find(rows + [Inserted(c, |rows| + 1, now)], |rows| + 1);
      && d.Some? && d.value.telegramId == c.telegramId && d.value.expireAt == c.expireAt
      && d.value.language == c.language && d.value.subscriptionLink.None?
  {
  }

  class CustomerRepository {
    var rows: seq<Customer>

    ghost predicate Valid()
      reads this
    {
      WellKeyed(rows)
    }

    constructor ()
      ensures Valid() && rows == []
    {
      rows := [];
    }

    method FindByExpirationRange(start: int, end: int) returns (cs: seq<Customer>)
      ensures cs == InRange(rows, start, end)
    {
      cs := [];
      var i := 0;
      while i < |rows|
        invariant 0 <= i <= |rows|
        invariant cs == InRange(rows[..i], start, end)
      {
        assert rows[..i + 1][..i] == rows[..i];
        var c := rows[i];
        if c.expireAt.Some? && c.expireAt.value >= start && c.expireAt.value <= end {
          cs := cs + [c];
        }
        i := i + 1;
      }
      assert rows[..i] == rows;
    }

    method FindById(id: int) returns (r: Option<Customer>)
      requires Valid()
      ensures r == Find(rows, id)
      ensures r.Some? ==> r.value in rows && r.value.id == id
      ensures r.None? ==> forall d :: d in rows ==> d.id != id
    {
      if 1 <= id <= |rows| {
        r := Some(rows[id - 1]);
      } else {
        r := None;
        forall d | d in rows
          ensures d.id != id
        {
          FindMeansRowWithId(rows, id, d);
        }
      }
    }

    method FindByTelegramId(telegramId: int) returns (r: Option<Customer>)
      ensures r == FindTelegram(rows, telegramId)
    {
      var i := 0;
      while i < |rows|
        invariant 0 <= i <= |rows|
        invariant FindTelegram(rows, telegramId) == FindTelegram(rows[i..], telegramId)
      {
        if rows[i].telegramId == telegramId {
          var c := rows[i];
          return Some(Customer(c.id, c.telegramId, c.expireAt, c.createdAt, c.subscriptionLink, ""));
        }
        assert rows[i..][1..] == rows[i + 1..];
        i := i + 1;
      }
      r := None;
    }

    method Create(c: Customer, now: int, fault: bool) returns (err: bool)
      requires Valid()
      modifies this
      ensures Valid()
      ensures err == fault
      ensures err ==> rows == old(rows)
      ensures !err ==> rows == old(rows) + [Inserted(c, |old(rows)| + 1, now)]
    {
      if fault {
        return true;
      }
      rows := rows + [Inserted(c, |rows| + 1, now)];
      err := false;
    }

    method UpdateFields(id: int, us: seq<Update>) returns (err: bool)
      requires Valid()
      modifies this
      ensures Valid()
      ensures err <==> us != [] && Find(old(rows), id).None?
      ensures rows == Updated(old(rows), id, us)
    {
      UpdatedFrame(rows, id, us);
      if us == [] {
        return false;
      }
      if !(1 <= id <= |rows|) {
        return true;
      }
      var row := rows[id - 1];
      var i := 0;
      while i < |us|
        invariant 0 <= i <= |us|
        invariant row == ApplyAll(rows[id - 1], us[..i])
      {
        assert us[..i + 1][..i] == us[..i];
        row := Apply(row, us[i]);
        i := i + 1;
      }
      assert us[..i] == us;
      rows := rows[id - 1 := row];
      err := false;
    }
  }
}

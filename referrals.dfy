/**
 * The referral ledger (internal/database/referal.go), held in memory: rows with
 * serial ids 1, 2, 3, …, never deleted; a failing database is modelled on
 * inserts only. `used_at` is the insertion time, given as a parameter.
 */
module Referrals {
  import opened Wrappers

  datatype Referral = Referral(id: int, referrerId: int, refereeId: int, usedAt: int, bonusGranted: bool)

  predicate WellKeyed(rows: seq<Referral>)
  {
    forall i :: 0 <= i < |rows| ==> rows[i].id == i + 1
  }

  /** The referrer's rows, in table order. */
  function ByReferrer(rows: seq<Referral>, referrer: int): seq<Referral>
  {
    if rows == [] then []
    else
      var last := rows[|rows| - 1];
      ByReferrer(rows[..|rows| - 1], referrer) + (if last.referrerId == referrer then [last] else [])
  }

  lemma {:induction false} ByReferrerExact(rows: seq<Referral>, referrer: int)
    ensures forall r :: r in ByReferrer(rows, referrer) <==> r in rows && r.referrerId == referrer
  {
    if rows != [] {
      ByReferrerExact(rows[..|rows| - 1], referrer);
      assert rows == rows[..|rows| - 1] + [rows[|rows| - 1]];
    }
  }

  /** `used_at` never increases along the list. */
  predicate NewestFirst(list: seq<Referral>)
  {
    forall i, j :: 0 <= i < j < |list| ==> list[i].usedAt >= list[j].usedAt
  }

  /** Places r in front of the first strictly older entry. */
  function InsertNewestFirst(list: seq<Referral>, r: Referral): seq<Referral>
  {
    if list == [] then [r]
    else if list[0].usedAt < r.usedAt then [r] + list
    else [list[0]] + InsertNewestFirst(list[1..], r)
  }

  /** No entry is newer than b. */
  predicate NoNewerThan(list: seq<Referral>, b: int)
  {
    forall k :: 0 <= k < |list| ==> list[k].usedAt <= b
  }

  lemma {:induction false} InsertNewestFirstBound(list: seq<Referral>, r: Referral, b: int)
    requires NoNewerThan(list, b) && r.usedAt <= b
    ensures NoNewerThan(InsertNewestFirst(list, r), b)
  {
    if list != [] && list[0].usedAt >= r.usedAt {
      InsertNewestFirstBound(list[1..], r, b);
    }
  }

  lemma ConsNewestFirst(a: Referral, list: seq<Referral>)
    requires NewestFirst(list) && NoNewerThan(list, a.usedAt)
    ensures NewestFirst([a] + list)
  {
  }

  lemma {:induction false} InsertNewestFirstKeepsOrder(list: seq<Referral>, r: Referral)
    requires NewestFirst(list)
    ensures NewestFirst(InsertNewestFirst(list, r))
  {
    if list == [] {
    } else if list[0].usedAt < r.usedAt {
      assert NoNewerThan(list, r.usedAt);
      ConsNewestFirst(r, list);
    } else {
      var tail := list[1..];
      InsertNewestFirstKeepsOrder(tail, r);
      assert NoNewerThan(tail, list[0].usedAt);
      InsertNewestFirstBound(tail, r, list[0].usedAt);
      ConsNewestFirst(list[0], InsertNewestFirst(tail, r));
    }
  }

  lemma {:induction false} InsertNewestFirstAddsOne(list: seq<Referral>, r: Referral)
    ensures multiset(InsertNewestFirst(list, r)) == multiset(list) + multiset{r}
  {
    if list != [] && list[0].usedAt >= r.usedAt {
      InsertNewestFirstAddsOne(list[1..], r);
      assert list == [list[0]] + list[1..];
    }
  }

  /** One row of FindByReferrer's loop: a row of the referrer is inserted in place, any other row skipped. */
  lemma CollectStep(rows: seq<Referral>, i: nat, referrer: int, list: seq<Referral>)
    requires i < |rows| && NewestFirst(list) && multiset(list) == multiset(ByReferrer(rows[..i], referrer))
    ensures var next := if rows[i].referrerId == referrer then InsertNewestFirst(list, rows[i]) else list;
      NewestFirst(next) && multiset(next) == multiset(ByReferrer(rows[..i + 1], referrer))
  {
    assert rows[..i + 1][..i] == rows[..i];
    if rows[i].referrerId == referrer {
      InsertNewestFirstKeepsOrder(list, rows[i]);
      InsertNewestFirstAddsOne(list, rows[i]);
    }
  }

  lemma SameMultisetSameMembers(a: seq<Referral>, b: seq<Referral>)
    requires multiset(a) == multiset(b)
    ensures forall r :: r in a <==> r in b
  {
    forall r
      ensures r in a <==> r in b
    {
      assert r in a <==> r in multiset(a);
      assert r in b <==> r in multiset(b);
    }
  }

  /** The table after MarkBonusGranted(id). */
  function Granted(rows: seq<Referral>, id: int): seq<Referral>
  {
    if 1 <= id <= |rows| then rows[id - 1 := rows[id - 1].(bonusGranted := true)] else rows
  }

  /** MarkBonusGranted sets the flag on that row only, and repeating it changes nothing more. */
  lemma GrantedProperties(rows: seq<Referral>, id: int)
    requires WellKeyed(rows)
    ensures WellKeyed(Granted(rows, id))
    ensures |Granted(rows, id)| == |rows|
    ensures forall i :: 0 <= i < |rows| && rows[i].id != id ==> Granted(rows, id)[i] == rows[i]
    ensures forall i :: 0 <= i < |rows| && rows[i].id == id ==> Granted(rows, id)[i] == rows[i].(bonusGranted := true)
    ensures Granted(Granted(rows, id), id) == Granted(rows, id)
  {
  }

  class ReferralRepository {
    var rows: seq<Referral>

    ghost predicate Valid()
      reads this
    {
      WellKeyed(rows)
    }

    constructor ()
      ensures Valid() && rows == []
    {
      rows := [];
    }

    /** Inserts a referral used now, without the bonus, and returns the stored row (absence when the database fails). */
    method Create(referrer: int, referee: int, now: int, fault: bool) returns (r: Option<Referral>)
      requires Valid()
      modifies this
      ensures Valid()
      ensures fault ==> r.None? && rows == old(rows)
      ensures !fault ==> r == Some(Referral(|old(rows)| + 1, referrer, referee, now, false)) && rows == old(rows) + [r.value]
    {
      if fault {
        return None;
      }
      var ref := Referral(|rows| + 1, referrer, referee, now, false);
      rows := rows + [ref];
      r := Some(ref);
    }

    /** The referrer's referrals, most recently used first. */
    method FindByReferrer(referrer: int) returns (list: seq<Referral>)
      ensures NewestFirst(list)
      ensures multiset(list) == multiset(ByReferrer(rows, referrer))
      ensures forall r :: r in list <==> r in rows && r.referrerId == referrer
    {
      list := [];
      var i := 0;
      while i < |rows|
        invariant 0 <= i <= |rows|
        invariant NewestFirst(list)
        invariant multiset(list) == multiset(ByReferrer(rows[..i], referrer))
      {
        CollectStep(rows, i, referrer, list);
        if rows[i].referrerId == referrer {
          list := InsertNewestFirst(list, rows[i]);
        }
        i := i + 1;
      }
      assert rows[..i] == rows;
      ByReferrerExact(rows, referrer);
      SameMultisetSameMembers(list, ByReferrer(rows, referrer));
    }

    method CountByReferrer(referrer: int) returns (count: int)
      ensures count == |ByReferrer(rows, referrer)|
    {
      count := 0;
      var i := 0;
      while i < |rows|
        invariant 0 <= i <= |rows|
        invariant count == |ByReferrer(rows[..i], referrer)|
      {
        assert rows[..i + 1][..i] == rows[..i];
        if rows[i].referrerId == referrer {
          count := count + 1;
        }
        i := i + 1;
      }
      assert rows[..i] == rows;
    }

    /** One referral of the referee (LIMIT 1), or absence when there is none. */
    method FindByReferee(referee: int) returns (r: Option<Referral>)
      ensures r.Some? ==> r.value in rows && r.value.refereeId == referee
      ensures r.None? <==> forall q :: q in rows ==> q.refereeId != referee
    {
      var i := 0;
      while i < |rows|
        invariant 0 <= i <= |rows|
        invariant forall k :: 0 <= k < i ==> rows[k].refereeId != referee
      {
        if rows[i].refereeId == referee {
          return Some(rows[i]);
        }
        i := i + 1;
      }
      r := None;
    }

    /** Sets `bonus_granted`; fails with "no referral record updated" when no row has that id. */
    method MarkBonusGranted(id: int) returns (err: bool)
      requires Valid()
      modifies this
      ensures Valid()
      ensures err <==> !(1 <= id <= |old(rows)|)
      ensures rows == Granted(old(rows), id)
    {
      GrantedProperties(rows, id);
      if !(1 <= id <= |rows|) {
        return true;
      }
      rows := rows[id - 1 := rows[id - 1].(bonusGranted := true)];
      err := false;
    }
  }

  /** The number CountByReferrer reports is the length of the list FindByReferrer returns. */
  lemma CountMatchesList(rows: seq<Referral>, referrer: int, list: seq<Referral>)
    requires multiset(list) == multiset(ByReferrer(rows, referrer))
    ensures |list| == |ByReferrer(rows, referrer)|
  {
    assert |multiset(list)| == |multiset(ByReferrer(rows, referrer))|;
  }
}

/**
 * The in-memory TTL cache (internal/cache/cache.go): integer values by
 * 64-bit key, each with an expiry time. The clock is a parameter (`now`);
 * the mutex and the five-minute ticker that runs the sweep are not part of
 * this model, so the sweep is a method called with the time of the tick.
 */
module TtlCache {
  datatype Item = Item(value: int, expiresAt: int)

  /**
   * What Get answers for a key at time `now`: the value and true while the
   * entry exists and now is not after its expiry (an entry is still found
   * at exactly its expiry), and (0, false) otherwise.
   */
  function Lookup(data: map<int, Item>, key: int, now: int): (r: (int, bool))
    ensures r.1 <==> key in data && now <= data[key].expiresAt
    ensures r.1 ==> r.0 == data[key].value
    ensures !r.1 ==> r.0 == 0
  {
    if key !in data || now > data[key].expiresAt then (0, false) else (data[key].value, true)
  }

  /** The entries a sweep at time `now` keeps: those not yet expired. */
  function Swept(data: map<int, Item>, now: int): map<int, Item>
  {
    map k | k in data && now <= data[k].expiresAt :: data[k]
  }

  /** A Set at time `setAt` is found by every Get up to and including setAt + ttl, and by none after. */
  lemma SetThenGet(data: map<int, Item>, key: int, value: int, ttl: int, setAt: int, now: int)
    ensures now <= setAt + ttl ==> Lookup(data[key := Item(value, setAt + ttl)], key, now) == (value, true)
    ensures now > setAt + ttl ==> Lookup(data[key := Item(value, setAt + ttl)], key, now) == (0, false)
  {
  }

  /** Set overwrites its own key's value and expiry and leaves every other key's answer alone. */
  lemma SetTouchesOneKey(data: map<int, Item>, key: int, other: int, value: int, expiresAt: int, now: int)
    requires other != key
    ensures Lookup(data[key := Item(value, expiresAt)], other, now) == Lookup(data, other, now)
  {
  }

  /**
   * The sweep removes exactly the expired entries and leaves the rest as
   * they were, so no Get at the sweep's time or later can tell that it ran.
   */
  lemma {:induction false} SweepIsInvisible(data: map<int, Item>, sweptAt: int, now: int, key: int)
    requires sweptAt <= now
    ensures key in Swept(data, sweptAt) <==> key in data && sweptAt <= data[key].expiresAt
    ensures key in Swept(data, sweptAt) ==> Swept(data, sweptAt)[key] == data[key]
    ensures Lookup(Swept(data, sweptAt), key, now) == Lookup(data, key, now)
  {
    if key in data && key !in Swept(data, sweptAt) {
      assert data[key].expiresAt < sweptAt <= now;
    }
  }

  class Cache {
    var data: map<int, Item>
    const ttl: int

    /** NewCache. */
    constructor (ttl: int)
      ensures data == map[] && this.ttl == ttl
    {
      data := map[];
      this.ttl := ttl;
    }

    method Set(key: int, value: int, now: int)
      modifies this
      ensures data == old(data)[key := Item(value, now + ttl)]
    {
      data := data[key := Item(value, now + ttl)];
    }

    method Get(key: int, now: int) returns (value: int, found: bool)
      ensures (value, found) == Lookup(data, key, now)
    {
      if key !in data || now > data[key].expiresAt {
        return 0, false;
      }
      return data[key].value, true;
    }

    /** The body of cleanupExpired's loop, for one tick at time `now`. */
    method CleanupExpired(now: int)
      modifies this
      ensures data == Swept(old(data), now)
    {
      var keys := data.Keys;
      while keys != {}
        invariant keys <= old(data).Keys
        invariant forall j :: j in data <==> j in old(data) && (j in keys || now <= old(data)[j].expiresAt)
        invariant forall j :: j in data ==> data[j] == old(data)[j]
        decreases keys
      {
        if forall j :: j !in keys { assert false; }
        var key :| key in keys;
        if now > data[key].expiresAt {
          data := data - {key};
        }
        keys := keys - {key};
      }
      assert forall j :: j !in keys;
      assert forall j :: j in data <==> j in Swept(old(data), now);
      assert forall j :: j in data ==> data[j] == Swept(old(data), now)[j];
    }
  }
}

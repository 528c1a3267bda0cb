/** The in-process cache of internal/cache/memory/memory.go: a map from key
    to value and optional expiry time, read lazily (an expired entry reads
    as empty) and swept periodically. Time is an integer clock in
    nanoseconds passed in as `now`; `None` stands for Go's zero time, i.e.
    no expiry. */
module MemoryCache {
  import opened Wrappers
  import opened Decimal

  datatype Entry = Entry(value: string, expiredAt: Option<int>)

  type Store = map<string, Entry>

  /** `time.Now().After(expiredAt)` for an entry whose expiry is set. */
  predicate Expired(e: Entry, now: int) {
    e.expiredAt.Some? && now > e.expiredAt.value
  }

  /** What `Get` returns. */
  function Lookup(m: Store, key: string, now: int): (r: string)
    ensures key !in m ==> r == ""
    ensures key in m && Expired(m[key], now) ==> r == ""
    ensures key in m && !Expired(m[key], now) ==> r == m[key].value
  {
    if key in m && !Expired(m[key], now) then m[key].value else ""
  }

  /** What `TTL` returns: 0 for an absent key or one without expiry, otherwise
      the time left, negative once the expiry has passed. */
  function RemainingTtl(m: Store, key: string, now: int): (r: int)
    ensures key !in m || m[key].expiredAt.None? ==> r == 0
    ensures key in m && m[key].expiredAt.Some? ==> r == m[key].expiredAt.value - now
  {
    if key in m && m[key].expiredAt.Some? then m[key].expiredAt.value - now else 0
  }

  /** The store after `Set(key, value)`. */
  function Stored(m: Store, key: string, value: string): (r: Store)
    ensures r.Keys == m.Keys + {key}
    ensures r[key] == Entry(value, None)
    ensures forall k :: k in m && k != key ==> r[k] == m[k]
  {
    m[key := Entry(value, None)]
  }

  /** The store after `Expire(key, ttl)`. */
  function WithExpiry(m: Store, key: string, ttl: int, now: int): (r: Store)
    ensures r.Keys == m.Keys
    ensures key in m ==> r[key] == Entry(m[key].value, Some(now + ttl))
    ensures forall k :: k in m && k != key ==> r[k] == m[k]
  {
    if key in m then m[key := m[key].(expiredAt := Some(now + ttl))] else m
  }

  /** The store after `Incr(key)`, or the parse error that leaves it unchanged.
      The expiry of an existing entry is neither checked nor changed. */
  function Incremented(m: Store, key: string): (r: Result<Store, NumError>)
    ensures key !in m ==> r == Ok(m[key := Entry("1", None)])
    ensures key in m && Atoi(m[key].value).Err? ==> r == Err(Atoi(m[key].value).error)
    ensures r.Ok? ==> r.value.Keys == m.Keys + {key}
    ensures r.Ok? ==> forall k :: k in m && k != key ==> r.value[k] == m[k]
    ensures r.Ok? && key in m ==> r.value[key].expiredAt == m[key].expiredAt
  {
    if key in m then
      match Atoi(m[key].value)
      case Err(e) => Err(e)
      case Ok(n) => Ok(m[key := m[key].(value := Itoa(Wrap64(n + 1)))])
    else
      Ok(m[key := Entry("1", None)])
  }

  /** The store after one sweep: exactly the entries that have expired are gone. */
  function Swept(m: Store, now: int): (r: Store)
    ensures forall k :: k in r <==> k in m && !Expired(m[k], now)
    ensures forall k :: k in r ==> r[k] == m[k]
  {
    map k | k in m && !Expired(m[k], now) :: m[k]
  }

  /** After `Set`, `Get` returns the value and `TTL` is 0. */
  lemma SetThenRead(m: Store, key: string, value: string, now: int)
    ensures Lookup(Stored(m, key, value), key, now) == value
    ensures RemainingTtl(Stored(m, key, value), key, now) == 0
  {
  }

  /** `Expire` changes when an entry expires and nothing else; an absent key stays absent. */
  lemma ExpireKeepsValue(m: Store, key: string, ttl: int, now: int)
    ensures key in m ==> Lookup(WithExpiry(m, key, ttl, now), key, now + ttl) == m[key].value
    ensures key in m ==> RemainingTtl(WithExpiry(m, key, ttl, now), key, now) == ttl
    ensures key !in m ==> WithExpiry(m, key, ttl, now) == m
  {
  }

  /** `Incr` on an absent key stores "1", without expiry. */
  lemma IncrAbsent(m: Store, key: string, now: int)
    requires key !in m
    ensures Incremented(m, key).Ok?
    ensures Lookup(Incremented(m, key).value, key, now) == "1"
    ensures RemainingTtl(Incremented(m, key).value, key, now) == 0
  {
  }

  /** `Incr` on the decimal text of n stores the text of n + 1 and keeps the expiry. */
  lemma IncrCounter(m: Store, key: string, n: int)
    requires MinInt64 <= n < MaxInt64
    requires key in m && m[key].value == Itoa(n)
    ensures Incremented(m, key).Ok?
    ensures Incremented(m, key).value[key] == Entry(Itoa(n + 1), m[key].expiredAt)
    ensures Atoi(Incremented(m, key).value[key].value) == Ok(n + 1)
  {
    AtoiItoa(n);
    AtoiItoa(n + 1);
  }

  /** `Incr` on a value that is not a decimal integer fails and changes nothing. */
  lemma IncrNotANumber(m: Store, key: string)
    requires key in m && Atoi(m[key].value).Err?
    ensures Incremented(m, key).Err?
  {
  }

  /** Every write touches only its own key: `Get` and `TTL` of any other key
      read the same before and after. */
  lemma WritesAreLocal(m: Store, key: string, other: string, value: string, ttl: int, now: int, later: int)
    requires other != key
    ensures Lookup(Stored(m, key, value), other, later) == Lookup(m, other, later)
    ensures RemainingTtl(Stored(m, key, value), other, later) == RemainingTtl(m, other, later)
    ensures Lookup(WithExpiry(m, key, ttl, now), other, later) == Lookup(m, other, later)
    ensures RemainingTtl(WithExpiry(m, key, ttl, now), other, later) == RemainingTtl(m, other, later)
    ensures Incremented(m, key).Ok? ==>
              Lookup(Incremented(m, key).value, other, later) == Lookup(m, other, later)
              && RemainingTtl(Incremented(m, key).value, other, later) == RemainingTtl(m, other, later)
  {
  }

  /** A sweep is invisible to `Get`: every key reads the same before and
      after, since only entries that already read as empty are removed. */
  lemma SweepInvisibleToGet(m: Store, key: string, now: int)
    ensures Lookup(Swept(m, now), key, now) == Lookup(m, key, now)
  {
  }

  /** An expired entry that has not been swept yet is still counted by `Incr`
      from its old value, and the result keeps the expiry already passed. */
  lemma IncrIgnoresExpiry(m: Store, key: string, n: int, now: int)
    requires MinInt64 <= n < MaxInt64
    requires key in m && m[key].value == Itoa(n) && Expired(m[key], now)
    ensures Lookup(m, key, now) == ""
    ensures Incremented(m, key).Ok?
    ensures Incremented(m, key).value[key].value == Itoa(n + 1)
    ensures Expired(Incremented(m, key).value[key], now)
  {
    IncrCounter(m, key, n);
  }

  /** The cache object; `data` is the map the Go type guards with its lock. */
  class Cache {
    var data: Store

    constructor ()
      ensures data == map[]
    {
      data := map[];
    }

    /** `Get`: the stored value, or "" for an absent or expired key. */
    method Get(key: string, now: int) returns (value: string)
      ensures value == Lookup(data, key, now)
    {
      if key in data {
        var res := data[key];
        if res.expiredAt.Some? {
          if now > res.expiredAt.value {
            return "";
          }
        }
        return res.value;
      }
      return "";
    }

    /** `Set`: stores the value with no expiry. */
    method Set(key: string, value: string)
      modifies this
      ensures data == Stored(old(data), key, value)
    {
      data := data[key := Entry(value, None)];
    }

    /** `Expire`: sets the expiry of a present key to now + ttl. */
    method Expire(key: string, ttl: int, now: int)
      modifies this
      ensures data == WithExpiry(old(data), key, ttl, now)
    {
      if key in data {
        var res := data[key];
        data := data[key := res.(expiredAt := Some(now + ttl))];
      }
    }

    /** `TTL`: the time left before the key expires. */
    method TTL(key: string, now: int) returns (ttl: int)
      ensures ttl == RemainingTtl(data, key, now)
    {
      if key in data {
        var res := data[key];
        if res.expiredAt.None? {
          return 0;
        }
        return res.expiredAt.value - now;
      }
      return 0;
    }

    /** `Incr`: adds one to a decimal value, or stores "1" for an absent key. */
    method Incr(key: string) returns (err: Outcome<NumError>)
      modifies this
      ensures Incremented(old(data), key).Ok? ==>
                err == Pass && data == Incremented(old(data), key).value
      ensures Incremented(old(data), key).Err? ==>
                err == Fail(Incremented(old(data), key).error) && data == old(data)
    {
      if key in data {
        var res := data[key];
        var parsed := Atoi(res.value);
        if parsed.Err? {
          return Fail(parsed.error);
        }
        data := data[key := res.(value := Itoa(Wrap64(parsed.value + 1)))];
      } else {
        data := data[key := Entry("1", None)];
      }
      return Pass;
    }

    /** One tick of the background sweeper: collect the expired keys, then
        delete them. */
    method Sweep(now: int)
      modifies this
      ensures data == Swept(old(data), now)
    {
      var deleteKeys: seq<string> := [];
      var pending := data.Keys;
      while pending != {}
        invariant pending <= data.Keys
        invariant forall k :: k in deleteKeys <==> k in data && k !in pending && Expired(data[k], now)
        decreases pending
      {
        var k :| k in pending;
        var v := data[k];
        if v.expiredAt.Some? && now > v.expiredAt.value {
          deleteKeys := deleteKeys + [k];
        }
        pending := pending - {k};
      }
      ghost var before := data;
      for i := 0 to |deleteKeys|
        invariant data.Keys == before.Keys - set j | 0 <= j < i :: deleteKeys[j]
        invariant forall k :: k in data ==> data[k] == before[k]
      {
        data := data - {deleteKeys[i]};
      }
      assert forall k :: k in deleteKeys <==> k in set j | 0 <= j < |deleteKeys| :: deleteKeys[j];
    }
  }
}

/**
  The in-memory TTL cache (intrenal/cache/cache.go): two maps, the orders by
  uid and their expiry instants, updated in place by SetOrder and ReStoreCache
  and filtered by GetOrder and GetAll. The clock reading `now` is a parameter.
 */
module Caching {
  import opened Wrappers
  import opened Models

  /** Reading a Go map at a missing key yields the zero `time.Time`. */
  function ExpiryAt(expires: map<string, Time>, uid: string): Time {
    if uid in expires then expires[uid] else ZeroTime
  }

  /**
    GetOrder's answer. The expiry is read under the stored order's own uid,
    not under the key asked for, and the entry is a miss only when `now` is
    strictly after it, so at the expiry instant itself it is still a hit.
   */
  function Lookup(orders: map<string, Order>, expires: map<string, Time>, key: string, now: Time): Option<Order> {
    if key !in orders then None
    else if now > ExpiryAt(expires, orders[key].orderUid) then None
    else Some(orders[key])
  }

  /** GetAll's selection: an entry survives only while `now` is strictly before its expiry. */
  function Live(orders: map<string, Order>, expires: map<string, Time>, now: Time): map<string, Order> {
    map uid | uid in orders && now < ExpiryAt(expires, uid) :: orders[uid]
  }

  /**
    `after` is `before` with every key of `keys` given the expiry `at`: those
    keys are added or overwritten, all other expiries are kept.
   */
  ghost predicate Refreshed(after: map<string, Time>, before: map<string, Time>, keys: set<string>, at: Time) {
    && after.Keys == before.Keys + keys
    && forall uid | uid in after :: after[uid] == if uid in keys then at else before[uid]
  }

  /** Every entry is filed under its own uid (what SetOrder does, and what the store hands back). */
  ghost predicate KeyedByUid(orders: map<string, Order>) {
    forall k | k in orders :: orders[k].orderUid == k
  }

  class Cache {
    var orders: map<string, Order>
    var expires: map<string, Time>
    const ttl: int

    /** Every stored order has an expiry of its own. */
    ghost predicate Valid()
      reads this
    {
      orders.Keys <= expires.Keys
    }

    /** NewCache: both maps start empty. */
    constructor (ttl: int)
      ensures Valid()
      ensures orders == map[] && expires == map[] && this.ttl == ttl
    {
      this.ttl := ttl;
      orders := map[];
      expires := map[];
    }

    /** Unconditional overwrite of the value and of the expiry, under the order's uid. */
    method SetOrder(order: Order, now: Time)
      requires Valid()
      modifies this
      ensures Valid()
      ensures orders == old(orders)[order.orderUid := order]
      ensures expires == old(expires)[order.orderUid := now + ttl]
    {
      orders := orders[order.orderUid := order];
      expires := expires[order.orderUid := now + ttl];
    }

    method GetOrder(key: string, now: Time) returns (r: Option<Order>)
      ensures r == Lookup(orders, expires, key, now)
    {
      if key !in orders {
        return None;
      }
      var order := orders[key];
      var expiry := if order.orderUid in expires then expires[order.orderUid] else ZeroTime;
      if now > expiry {
        return None;
      }
      return Some(order);
    }

    /** The surviving entries, or not-found when the cache is empty or nothing survives. */
    method GetAll(now: Time) returns (r: Option<map<string, Order>>)
      ensures r.None? <==> Live(orders, expires, now) == map[]
      ensures r.Some? ==> r.value == Live(orders, expires, now)
    {
      if |orders| == 0 {
        return None;
      }
      var result: map<string, Order> := map[];
      var rest := orders.Keys;
      while rest != {}
        invariant rest <= orders.Keys
        invariant result.Keys <= orders.Keys - rest
        invariant forall uid | uid in orders.Keys - rest ::
          (uid in result <==> now < ExpiryAt(expires, uid))
        invariant forall uid | uid in result :: result[uid] == orders[uid]
        decreases rest
      {
        var uid :| uid in rest;
        var expiry := if uid in expires then expires[uid] else ZeroTime;
        if now < expiry {
          result := result[uid := orders[uid]];
        }
        rest := rest - {uid};
      }
      assert result == Live(orders, expires, now);
      if result == map[] {
        return None;
      }
      return Some(result);
    }

    /**
      Replaces the orders map wholesale, but only adds to the expiries: keys
      outside `m` keep whatever expiry they had.
     */
    method ReStoreCache(m: map<string, Order>, now: Time) returns (r: map<string, Order>)
      requires Valid()
      modifies this
      ensures Valid()
      ensures orders == m && r == m
      ensures Refreshed(expires, old(expires), m.Keys, now + ttl)
    {
      orders := m;
      var rest := m.Keys;
      while rest != {}
        invariant rest <= m.Keys
        invariant orders == m
        invariant Refreshed(expires, old(expires), m.Keys - rest, now + ttl)
        decreases rest
      {
        var uid :| uid in rest;
        expires := expires[uid := now + ttl];
        rest := rest - {uid};
      }
      return m;
    }
  }

  /**
    Write then read: after SetOrder at `at`, GetOrder for that uid answers the
    order up to and including `at + ttl`, and not-found strictly after.
   */
  lemma SetThenLookup(orders: map<string, Order>, expires: map<string, Time>, o: Order, at: Time, ttl: int, now: Time)
    ensures Lookup(orders[o.orderUid := o], expires[o.orderUid := at + ttl], o.orderUid, now)
            == if now <= at + ttl then Some(o) else None
  {
  }

  /** SetOrder on a cache keyed by uid leaves every other key's answer as it was. */
  lemma SetLeavesOtherKeys(orders: map<string, Order>, expires: map<string, Time>, o: Order, at: Time, ttl: int,
                           key: string, now: Time)
    requires KeyedByUid(orders) && key != o.orderUid
    ensures KeyedByUid(orders[o.orderUid := o])
    ensures Lookup(orders[o.orderUid := o], expires[o.orderUid := at + ttl], key, now) == Lookup(orders, expires, key, now)
  {
  }

  /** GetAll after SetOrder: the written uid joins (or leaves) the live set according to its new expiry alone. */
  lemma SetThenLive(orders: map<string, Order>, expires: map<string, Time>, o: Order, at: Time, ttl: int, now: Time)
    ensures Live(orders[o.orderUid := o], expires[o.orderUid := at + ttl], now)
            == if now < at + ttl then Live(orders, expires, now)[o.orderUid := o]
               else Live(orders, expires, now) - {o.orderUid}
  {
  }

  /**
    The two readers differ at exactly one instant: at `now == expiry` GetOrder
    still answers the entry while GetAll has already dropped it.
   */
  lemma ExpiryInstantDisagreement(orders: map<string, Order>, expires: map<string, Time>, key: string)
    requires KeyedByUid(orders) && key in orders && key in expires
    ensures Lookup(orders, expires, key, expires[key]) == Some(orders[key])
    ensures key !in Live(orders, expires, expires[key])
  {
  }

  /**
    On a cache keyed by uid, everything GetAll returns GetOrder also returns,
    and GetOrder returns something GetAll omits only at its expiry instant.
   */
  lemma LiveAgreesWithLookup(orders: map<string, Order>, expires: map<string, Time>, key: string, now: Time)
    requires KeyedByUid(orders)
    ensures key in Live(orders, expires, now) ==> Lookup(orders, expires, key, now) == Some(Live(orders, expires, now)[key])
    ensures Lookup(orders, expires, key, now).Some? && key !in Live(orders, expires, now) ==> now == ExpiryAt(expires, key)
  {
  }

  /**
    Restore then bulk read: with a positive TTL, GetAll at the restore instant
    returns exactly the restored snapshot.
   */
  lemma RestoreThenLive(m: map<string, Order>, before: map<string, Time>, after: map<string, Time>, ttl: int, now: Time)
    requires Refreshed(after, before, m.Keys, now + ttl) && ttl > 0
    ensures Live(m, after, now) == m
  {
  }

  /** Restore then single read: every restored entry filed under its own uid is a hit until `now + ttl`. */
  lemma RestoreThenLookup(m: map<string, Order>, before: map<string, Time>, after: map<string, Time>, ttl: int,
                          now: Time, later: Time, key: string)
    requires Refreshed(after, before, m.Keys, now + ttl) && KeyedByUid(m) && key in m && later <= now + ttl
    ensures Lookup(m, after, key, later) == Some(m[key])
  {
  }
}

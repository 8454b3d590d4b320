/**
  The orchestrator (intrenal/service/service.go): write-through on save,
  read-through with cache fill on a single read, read-through with a whole
  cache restore on the bulk read.
 */
module Services {
  import opened Wrappers
  import opened Models
  import opened Caching
  import opened Persistence

  class Service {
    const store: Postgres
    const cache: Cache

    constructor (store: Postgres, cache: Cache)
      ensures this.store == store && this.cache == cache
    {
      this.store := store;
      this.cache := cache;
    }

    /**
      Write-through: the store first; the cache is written only once the store
      has reported a commit, so a store error leaves the cache as it was, even
      when the error is a lost Commit acknowledgement and the order is stored.
     */
    method SaveOrder(order: Order, now: Time, f: SaveFaults) returns (err: Option<Error>)
      requires cache.Valid()
      modifies store`tables, cache
      ensures cache.Valid()
      ensures err == if store.connected then SaveOutcome(f, |order.items|) else Some(PoolNil)
      ensures store.tables ==
        if store.connected && Durable(f, |order.items|) then Upsert(old(store.tables), Written(order, f))
        else old(store.tables)
      ensures err.Some? ==> cache.orders == old(cache.orders) && cache.expires == old(cache.expires)
      ensures err.None? ==>
        cache.orders == old(cache.orders)[order.orderUid := order] &&
        cache.expires == old(cache.expires)[order.orderUid := now + cache.ttl]
    {
      err := store.SaveUserData(order, f);
      if err.Some? {
        return;
      }
      cache.SetOrder(order, now);
      return None;
    }

    /**
      Read-through: a cache hit is answered without the store; on a miss the
      store's answer is returned, and cached only when it is an order.
     */
    method GetOrder(uid: string, now: Time, f: ReadFaults) returns (r: Result<Order, Error>)
      requires cache.Valid()
      modifies cache
      ensures cache.Valid()
      ensures var hit := Lookup(old(cache.orders), old(cache.expires), uid, now);
        hit.Some? ==> r == Ok(hit.value) && cache.orders == old(cache.orders) && cache.expires == old(cache.expires)
      ensures var hit := Lookup(old(cache.orders), old(cache.expires), uid, now);
        hit.None? ==> r == (if store.connected then Assemble(store.tables, uid, f) else Err(PoolNil))
      ensures Lookup(old(cache.orders), old(cache.expires), uid, now).None? && r.Err? ==>
        cache.orders == old(cache.orders) && cache.expires == old(cache.expires)
      ensures Lookup(old(cache.orders), old(cache.expires), uid, now).None? && r.Ok? ==>
        cache.orders == old(cache.orders)[uid := r.value] && cache.expires == old(cache.expires)[uid := now + cache.ttl]
    {
      var cached := cache.GetOrder(uid, now);
      if cached.Some? {
        return Ok(cached.value);
      }
      r := store.GetOrder(uid, f);
      if r.Err? {
        return;
      }
      AssembleNeverPartial(store.tables, uid, f);
      cache.SetOrder(r.value, now);
    }

    /**
      Bulk read-through: the live cache entries when there are any; otherwise
      the whole store, which then replaces the cache's contents.
     */
    method GetOrders(now: Time, f: BulkFaults) returns (r: Result<map<string, Order>, Error>)
      requires cache.Valid()
      modifies cache
      ensures cache.Valid()
      ensures var live := Live(old(cache.orders), old(cache.expires), now);
        live != map[] ==> r == Ok(live) && cache.orders == old(cache.orders) && cache.expires == old(cache.expires)
      ensures Live(old(cache.orders), old(cache.expires), now) == map[] ==>
        (r.Ok? <==> store.connected && BulkOk(store.tables, f))
      ensures Live(old(cache.orders), old(cache.expires), now) == map[] && r.Err? ==>
        cache.orders == old(cache.orders) && cache.expires == old(cache.expires)
      ensures Live(old(cache.orders), old(cache.expires), now) == map[] && r.Ok? ==>
        && r.value == Snapshot(store.tables, f)
        && cache.orders == r.value
        && Refreshed(cache.expires, old(cache.expires), r.value.Keys, now + cache.ttl)
    {
      var cached := cache.GetAll(now);
      if cached.Some? {
        return Ok(cached.value);
      }
      r := store.GetOrders(f);
      if r.Err? {
        return;
      }
      var restored := cache.ReStoreCache(r.value, now);
    }

    /**
      Cache hydration from the store: on success the cache holds exactly the
      store's contents, each with expiry `now + ttl`; on failure nothing changes.
     */
    method RestoreCache(now: Time, f: BulkFaults) returns (err: Option<Error>)
      requires cache.Valid()
      modifies cache
      ensures cache.Valid()
      ensures err.None? <==> store.connected && BulkOk(store.tables, f)
      ensures err.Some? ==> cache.orders == old(cache.orders) && cache.expires == old(cache.expires)
      ensures err.None? ==>
        && cache.orders == Snapshot(store.tables, f)
        && Refreshed(cache.expires, old(cache.expires), store.tables.orders.Keys, now + cache.ttl)
    {
      var loaded := store.GetOrders(f);
      if loaded.Err? {
        return Some(loaded.error);
      }
      SnapshotKeyedByUid(store.tables, f);
      var restored := cache.ReStoreCache(loaded.value, now);
      return None;
    }
  }

  /**
    Write-through round trip: after a committed save at `at`, a read at any
    `later <= at + ttl` is answered by the cache with the order itself; a later
    read falls through to the store, which answers the order with its items
    following any rows the uid already had.
   */
  lemma SaveThenRead(orders: map<string, Order>, expires: map<string, Time>, t: Tables, o: Order,
                     at: Time, ttl: int, later: Time)
    ensures var orders', expires' := orders[o.orderUid := o], expires[o.orderUid := at + ttl];
      && (later <= at + ttl ==> Lookup(orders', expires', o.orderUid, later) == Some(o))
      && (later > at + ttl ==> Lookup(orders', expires', o.orderUid, later).None?)
      && Assemble(Upsert(t, o), o.orderUid, NoReadFaults) == Ok(o.(items := RowsOf(t, o.orderUid) + o.items))
  {
    SetThenLookup(orders, expires, o, at, ttl, later);
    SaveThenLoad(t, o);
  }

  /**
    A save that commits after the driver refused one of its item inserts
    caches the whole order but stores it without that item: once the cache
    entry expires, a read of the same uid answers an order with fewer items.
   */
  lemma UnsentItemDivergence(t: Tables, o: Order, f: SaveFaults)
    requires o.orderUid !in t.items
    requires exists j | j in f.unsent :: j < |o.items|
    ensures Assemble(Upsert(t, Written(o, f)), o.orderUid, NoReadFaults) == Ok(Written(o, f))
    ensures |Written(o, f).items| < |o.items|
  {
    SaveThenLoad(t, Written(o, f));
    SentItems(o.items, f.unsent);
  }

  /**
    A save whose Commit the server applied but whose acknowledgement was lost
    reports CommitFailed, so the cache is left without the order, yet a read
    of the store returns it.
   */
  lemma LostAcknowledgementStoresUncached(t: Tables, o: Order, f: SaveFaults)
    requires f.commit && Durable(f, |o.items|)
    ensures SaveOutcome(f, |o.items|) == Some(CommitFailed)
    ensures var w := Written(o, f);
      Assemble(Upsert(t, w), o.orderUid, NoReadFaults) == Ok(w.(items := RowsOf(t, o.orderUid) + w.items))
  {
    SaveThenLoad(t, Written(o, f));
  }

  /**
    Read-through fill: an order loaded from the store on a miss at `now` is
    answered from the cache by every read of that uid up to `now + ttl`.
   */
  lemma ReadThroughFillsCache(orders: map<string, Order>, expires: map<string, Time>, t: Tables, uid: string,
                              f: ReadFaults, now: Time, ttl: int, later: Time)
    requires Assemble(t, uid, f).Ok? && later <= now + ttl
    ensures var v := Assemble(t, uid, f).value;
      Lookup(orders[uid := v], expires[uid := now + ttl], uid, later) == Some(v)
  {
    AssembleNeverPartial(t, uid, f);
    SetThenLookup(orders, expires, Assemble(t, uid, f).value, now, ttl, later);
  }

  /**
    After RestoreCache at `now` with a positive TTL, the bulk read at `now`
    returns exactly the store's contents, and each of them is a single-read hit
    until `now + ttl`.
   */
  lemma RestoreServesStoreContents(t: Tables, f: BulkFaults, before: map<string, Time>, after: map<string, Time>,
                                   ttl: int, now: Time, later: Time, uid: string)
    requires BulkOk(t, f) && ttl > 0
    requires Refreshed(after, before, t.orders.Keys, now + ttl)
    ensures Live(Snapshot(t, f), after, now) == Snapshot(t, f)
    ensures uid in t.orders && later <= now + ttl ==>
      Lookup(Snapshot(t, f), after, uid, later) == Some(Snapshot(t, f)[uid])
  {
    var snap := Snapshot(t, f);
    SnapshotKeyedByUid(t, f);
    RestoreThenLive(snap, before, after, ttl, now);
    if uid in t.orders && later <= now + ttl {
      RestoreThenLookup(snap, before, after, ttl, now, later, uid);
    }
  }
}

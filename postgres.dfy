/**
  The persistent store (intrenal/db/postgres.go) at the level its SQL text
  fixes: four tables keyed or foreign-keyed by `order_uid`, written by one
  transaction and read by independent queries. Each database step that can
  fail is given an explicit failure flag (an oracle), since the database
  itself is not part of this model.
 */
module Persistence {
  import opened Wrappers
  import opened Models

  /** A row of the `orders` table, without its `order_uid` key column. */
  datatype Header = Header(
    trackNumber: string,
    entry: string,
    locale: string,
    internalSignature: string,
    customerId: string,
    deliveryService: string,
    shardKey: string,
    smId: int,
    dateCreated: Time,
    oofShard: string)

  /**
    The four tables: `orders`, `delivery` and `payment` have one row per uid;
    `items` holds, per uid, its item rows in insertion order.
   */
  datatype Tables = Tables(
    orders: map<string, Header>,
    delivery: map<string, Delivery>,
    payment: map<string, Payment>,
    items: map<string, seq<Item>>)

  const EmptyTables := Tables(map[], map[], map[], map[])

  datatype Cause = NoRows | QueryError

  datatype Error =
    | PoolNil
    | TxBeginFailed
    | SaveOrderFailed
    | SaveDeliveryFailed
    | SavePaymentFailed
    | CommitFailed
    | GetOrderFailed(cause: Cause)
    | ListUidsFailed
    | ScanUidFailed
    | LoadOrderFailed(uid: string)
    | RowIterationFailed

  /**
    Which steps of SaveUserData fail. `items` holds the indices of item
    inserts the server rejects, which aborts the transaction. `unsent` holds
    the indices of item inserts the driver refuses before sending them, for
    instance a parameter it cannot encode: the server never sees those, and
    the transaction stays live. `commit` makes Commit report an error;
    `commitApplied` says that the server had nevertheless applied it, as when
    the caller's deadline expires while the acknowledgement is in flight.
   */
  datatype SaveFaults = SaveFaults(begin: bool, header: bool, delivery: bool, payment: bool,
                                   items: set<nat>, unsent: set<nat>, commit: bool, commitApplied: bool)

  /**
    Which queries of GetOrder fail. `itemScan` holds the indices of item rows
    whose Scan fails; `streamBreak == Some(n)` means the item row stream
    breaks after delivering `n` rows.
   */
  datatype ReadFaults = ReadFaults(header: bool, delivery: bool, payment: bool, itemsQuery: bool,
                                   itemScan: set<nat>, streamBreak: Option<nat>)

  const NoReadFaults := ReadFaults(false, false, false, false, {}, None)

  /** Which steps of GetOrders fail, and how each per-uid GetOrder fares. */
  datatype BulkFaults = BulkFaults(listQuery: bool, scan: set<string>, perOrder: string -> ReadFaults, iteration: bool)

  function HeaderOf(o: Order): Header {
    Header(o.trackNumber, o.entry, o.locale, o.internalSignature, o.customerId,
           o.deliveryService, o.shardKey, o.smId, o.dateCreated, o.oofShard)
  }

  /** The item rows stored for `uid` (none when the uid has never been saved). */
  function RowsOf(t: Tables, uid: string): seq<Item> {
    if uid in t.items then t.items[uid] else []
  }

  /**
    The effect of one committed SaveUserData: header, delivery and payment are
    upserted (ON CONFLICT ... DO UPDATE replaces every column), items appended.
   */
  function Upsert(t: Tables, o: Order): Tables {
    Tables(t.orders[o.orderUid := HeaderOf(o)],
           t.delivery[o.orderUid := o.delivery],
           t.payment[o.orderUid := o.payment],
           t.items[o.orderUid := RowsOf(t, o.orderUid) + o.items])
  }

  /** Every uid has its header, delivery, payment and item rows together, or none of them. */
  ghost predicate Consistent(t: Tables) {
    && t.delivery.Keys == t.orders.Keys
    && t.payment.Keys == t.orders.Keys
    && t.items.Keys == t.orders.Keys
  }

  /**
    The error SaveUserData reports on a connected pool, or None when it
    commits. The loop never looks at an item insert's error. An insert the
    server rejects aborts the PostgreSQL transaction, so the following Commit
    reports the failure; an insert the driver never sent leaves the
    transaction live, and the commit goes ahead without that row.
   */
  function SaveOutcome(f: SaveFaults, itemCount: nat): Option<Error> {
    if f.begin then Some(TxBeginFailed)
    else if f.header then Some(SaveOrderFailed)
    else if f.delivery then Some(SaveDeliveryFailed)
    else if f.payment then Some(SavePaymentFailed)
    else if f.commit || Aborted(f, itemCount) then Some(CommitFailed)
    else None
  }

  /** Some item insert within range reached the server and was rejected, aborting the transaction. */
  predicate Aborted(f: SaveFaults, itemCount: nat) {
    exists i | i in f.items && i !in f.unsent :: i < itemCount
  }

  /**
    Whether SaveUserData's writes reach the tables on a connected pool: every
    step before Commit went through, the transaction is not aborted, and the
    server applied the Commit, whether or not its acknowledgement arrived.
   */
  predicate Durable(f: SaveFaults, itemCount: nat) {
    !f.begin && !f.header && !f.delivery && !f.payment && !Aborted(f, itemCount)
    && (f.commit ==> f.commitApplied)
  }

  /** The item rows a transaction inserts: every item except those whose insert was never sent, in order. */
  function Sent(items: seq<Item>, unsent: set<nat>): seq<Item>
    decreases |items|
  {
    if items == [] then []
    else Sent(items[..|items| - 1], unsent) + (if |items| - 1 in unsent then [] else [items[|items| - 1]])
  }

  /** The order as a committed SaveUserData stores it: without the items whose insert was never sent. */
  function Written(o: Order, f: SaveFaults): Order {
    o.(items := Sent(o.items, f.unsent))
  }

  /** The order put together from its four parts, keyed by the uid queried. */
  function Build(uid: string, h: Header, d: Delivery, p: Payment, rows: seq<Item>): Order {
    Order(uid, h.trackNumber, h.entry, d, p, rows, h.locale, h.internalSignature, h.customerId,
          h.deliveryService, h.shardKey, h.smId, h.dateCreated, h.oofShard)
  }

  /**
    The three single-row queries and the items query of GetOrder, before any
    item row is read: a missing row is pgx's ErrNoRows.
   */
  function Fetch(t: Tables, uid: string, f: ReadFaults): Result<(Header, Delivery, Payment, seq<Item>), Error> {
    if f.header then Err(GetOrderFailed(QueryError))
    else if uid !in t.orders then Err(GetOrderFailed(NoRows))
    else if f.delivery then Err(GetOrderFailed(QueryError))
    else if uid !in t.delivery then Err(GetOrderFailed(NoRows))
    else if f.payment then Err(GetOrderFailed(QueryError))
    else if uid !in t.payment then Err(GetOrderFailed(NoRows))
    else if f.itemsQuery then Err(GetOrderFailed(QueryError))
    else Ok((t.orders[uid], t.delivery[uid], t.payment[uid], RowsOf(t, uid)))
  }

  /** How many item rows `rows.Next()` delivers before the stream ends or breaks. */
  function Delivered(rowCount: nat, f: ReadFaults): nat {
    if f.streamBreak.Some? && f.streamBreak.value < rowCount then f.streamBreak.value else rowCount
  }

  /** Some delivered item row fails to Scan. */
  predicate ScanFails(f: ReadFaults, delivered: nat) {
    exists i | i in f.itemScan :: i < delivered
  }

  /**
    GetOrder on a connected pool as the code is written: after the item loop
    `rows.Err()` is never consulted, so a broken stream ends the loop as if
    the rows were exhausted.
   */
  function AssembleAsWritten(t: Tables, uid: string, f: ReadFaults): Result<Order, Error> {
    match Fetch(t, uid, f)
    case Err(e) => Err(e)
    case Ok((h, d, p, rows)) =>
      var n := Delivered(|rows|, f);
      if ScanFails(f, n) then Err(GetOrderFailed(QueryError))
      else Ok(Build(uid, h, d, p, rows[..n]))
  }

  /**
    GetOrder on a connected pool, with the iteration error reported (as the
    bulk read already does after its own row loop).
   */
  function Assemble(t: Tables, uid: string, f: ReadFaults): Result<Order, Error> {
    match Fetch(t, uid, f)
    case Err(e) => Err(e)
    case Ok((h, d, p, rows)) =>
      var n := Delivered(|rows|, f);
      if ScanFails(f, n) then Err(GetOrderFailed(QueryError))
      else if n < |rows| then Err(GetOrderFailed(QueryError))
      else Ok(Build(uid, h, d, p, rows))
  }

  /** Every uid's GetOrder succeeds and the listing query, its scans and its iteration do too. */
  predicate BulkOk(t: Tables, f: BulkFaults) {
    && !f.listQuery
    && !f.iteration
    && forall uid | uid in t.orders :: uid !in f.scan && Assemble(t, uid, f.perOrder(uid)).Ok?
  }

  /** The map GetOrders builds when nothing fails. */
  function Snapshot(t: Tables, f: BulkFaults): map<string, Order>
    requires BulkOk(t, f)
  {
    map uid | uid in t.orders :: Assemble(t, uid, f.perOrder(uid)).value
  }

  class Postgres {
    /** `pool != nil` */
    const connected: bool
    var tables: Tables

    /** A store over a migrated database holding `tables`: empty on a first start, populated on a restart. */
    constructor (connected: bool, tables: Tables)
      ensures this.connected == connected && this.tables == tables
    {
      this.connected := connected;
      this.tables := tables;
    }

    /**
      One transaction: upsert header, delivery and payment, append the items,
      commit. The transaction works on its own copy of the tables; only Commit
      publishes it, and the deferred Rollback discards it on every early return.
     */
    method SaveUserData(o: Order, f: SaveFaults) returns (err: Option<Error>)
      modifies this`tables
      ensures err == if connected then SaveOutcome(f, |o.items|) else Some(PoolNil)
      ensures tables == if connected && Durable(f, |o.items|) then Upsert(old(tables), Written(o, f)) else old(tables)
    {
      if !connected {
        return Some(PoolNil);
      }
      if f.begin {
        return Some(TxBeginFailed);
      }
      var tx := tables;
      var uid := o.orderUid;

      if f.header {
        return Some(SaveOrderFailed);
      }
      tx := tx.(orders := tx.orders[uid := HeaderOf(o)]);

      if f.delivery {
        return Some(SaveDeliveryFailed);
      }
      tx := tx.(delivery := tx.delivery[uid := o.delivery]);

      if f.payment {
        return Some(SavePaymentFailed);
      }
      tx := tx.(payment := tx.payment[uid := o.payment]);

      // Each insert's error is dropped: one the server rejected leaves the
      // transaction aborted, one the driver never sent leaves it live.
      var rows := RowsOf(tx, uid);
      var aborted := false;
      var i := 0;
      while i < |o.items|
        invariant 0 <= i <= |o.items|
        invariant aborted <==> Aborted(f, i)
        invariant !aborted ==> rows == RowsOf(tables, uid) + Sent(o.items[..i], f.unsent)
      {
        assert o.items[..i + 1][..i] == o.items[..i];
        if i in f.unsent {
          // refused by the driver: nothing reaches the server
        } else if aborted || i in f.items {
          aborted := true;
        } else {
          rows := rows + [o.items[i]];
        }
        i := i + 1;
      }
      tx := tx.(items := tx.items[uid := rows]);

      assert o.items[..i] == o.items;
      if aborted {
        // Commit on an aborted transaction rolls it back
        return Some(CommitFailed);
      }
      if f.commit {
        if f.commitApplied {
          // the server committed; only its acknowledgement is lost
          tables := tx;
        }
        return Some(CommitFailed);
      }
      tables := tx;
      return None;
    }

    /**
      GetOrder: header, delivery and payment by single-row queries, then the
      item rows one by one. Either the whole aggregate or an error, never a
      partial order.
     */
    method GetOrder(uid: string, f: ReadFaults) returns (r: Result<Order, Error>)
      ensures r == if connected then Assemble(tables, uid, f) else Err(PoolNil)
    {
      if !connected {
        return Err(PoolNil);
      }
      if f.header {
        return Err(GetOrderFailed(QueryError));
      }
      if uid !in tables.orders {
        return Err(GetOrderFailed(NoRows));
      }
      var h := tables.orders[uid];
      if f.delivery {
        return Err(GetOrderFailed(QueryError));
      }
      if uid !in tables.delivery {
        return Err(GetOrderFailed(NoRows));
      }
      var d := tables.delivery[uid];
      if f.payment {
        return Err(GetOrderFailed(QueryError));
      }
      if uid !in tables.payment {
        return Err(GetOrderFailed(NoRows));
      }
      var p := tables.payment[uid];
      if f.itemsQuery {
        return Err(GetOrderFailed(QueryError));
      }
      var stored := RowsOf(tables, uid);
      var n := if f.streamBreak.Some? && f.streamBreak.value < |stored| then f.streamBreak.value else |stored|;
      var items: seq<Item> := [];
      var i := 0;
      while i < n
        invariant 0 <= i <= n <= |stored|
        invariant items == stored[..i]
        invariant forall j | j in f.itemScan :: !(j < i)
      {
        if i in f.itemScan {
          return Err(GetOrderFailed(QueryError));
        }
        items := items + [stored[i]];
        i := i + 1;
      }
      if n < |stored| {
        // the row stream broke: rows.Err() reports it
        return Err(GetOrderFailed(QueryError));
      }
      assert items == stored;
      return Ok(Build(uid, h, d, p, items));
    }

    /**
      GetOrders: list every uid in the orders table, load each through
      GetOrder, and fail as a whole on the first failure.
     */
    method GetOrders(f: BulkFaults) returns (r: Result<map<string, Order>, Error>)
      ensures !connected ==> r == Err(PoolNil)
      ensures r.Ok? <==> connected && BulkOk(tables, f)
      ensures r.Ok? ==> r.value == Snapshot(tables, f)
    {
      if !connected {
        return Err(PoolNil);
      }
      if f.listQuery {
        return Err(ListUidsFailed);
      }
      var result: map<string, Order> := map[];
      var rest := tables.orders.Keys;
      while rest != {}
        invariant rest <= tables.orders.Keys
        invariant result.Keys == tables.orders.Keys - rest
        invariant forall uid | uid in result ::
          uid !in f.scan && Assemble(tables, uid, f.perOrder(uid)) == Ok(result[uid])
        decreases rest
      {
        var uid :| uid in rest;
        if uid in f.scan {
          return Err(ScanUidFailed);
        }
        var loaded := GetOrder(uid, f.perOrder(uid));
        if loaded.Err? {
          return Err(LoadOrderFailed(uid));
        }
        result := result[uid := loaded.value];
        rest := rest - {uid};
      }
      if f.iteration {
        return Err(RowIterationFailed);
      }
      assert BulkOk(tables, f);
      assert result == Snapshot(tables, f);
      return Ok(result);
    }
  }

  /** SaveUserData commits exactly when no step fails and no item insert within range fails. */
  lemma SaveOutcomeCommitsIff(f: SaveFaults, itemCount: nat)
    ensures SaveOutcome(f, itemCount) == None <==>
      !f.begin && !f.header && !f.delivery && !f.payment && !f.commit
      && forall i | i in f.items && i !in f.unsent :: i >= itemCount
    ensures SaveOutcome(f, itemCount) != Some(PoolNil)
  {
  }

  /**
    The writes reach the tables on every commit, and on exactly one kind of
    error besides: a Commit the server applied but whose acknowledgement was
    lost. Every other error leaves the tables as they were.
   */
  lemma DurableIffCommittedOrAckLost(f: SaveFaults, itemCount: nat)
    ensures Durable(f, itemCount) <==>
      SaveOutcome(f, itemCount) == None
      || (SaveOutcome(f, itemCount) == Some(CommitFailed) && f.commit && f.commitApplied && !Aborted(f, itemCount))
  {
  }

  /**
    The rows a transaction inserts are the order's items when every insert is
    sent, and strictly fewer as soon as one of them is not.
   */
  lemma {:induction false} SentItems(items: seq<Item>, unsent: set<nat>)
    ensures |Sent(items, unsent)| <= |items|
    ensures (forall j | j in unsent :: j >= |items|) ==> Sent(items, unsent) == items
    ensures (exists j | j in unsent :: j < |items|) ==> |Sent(items, unsent)| < |items|
    decreases |items|
  {
    if items != [] {
      var init := items[..|items| - 1];
      SentItems(init, unsent);
      assert init + [items[|items| - 1]] == items;
      if exists j | j in unsent :: j < |items| {
        var j :| j in unsent && j < |items|;
        if j < |init| {
          assert exists j | j in unsent :: j < |init|;
        }
      }
    }
  }

  /**
    A committed save overwrites the header, delivery and payment rows of its
    uid, appends its items after the rows already there, and touches no other uid.
   */
  lemma UpsertEffect(t: Tables, o: Order, other: string)
    requires other != o.orderUid
    ensures var t' := Upsert(t, o);
      && t'.orders[o.orderUid] == HeaderOf(o)
      && t'.delivery[o.orderUid] == o.delivery
      && t'.payment[o.orderUid] == o.payment
      && RowsOf(t', o.orderUid) == RowsOf(t, o.orderUid) + o.items
      && (other in t'.orders <==> other in t.orders) && (other in t.orders ==> t'.orders[other] == t.orders[other])
      && (other in t'.delivery <==> other in t.delivery) && (other in t.delivery ==> t'.delivery[other] == t.delivery[other])
      && (other in t'.payment <==> other in t.payment) && (other in t.payment ==> t'.payment[other] == t.payment[other])
      && RowsOf(t', other) == RowsOf(t, other)
  {
  }

  /** Saving the same order twice keeps one header but duplicates every item row. */
  lemma ResaveDuplicatesItems(t: Tables, o: Order)
    ensures var twice := Upsert(Upsert(t, o), o);
      && twice.orders == Upsert(t, o).orders
      && twice.delivery == Upsert(t, o).delivery
      && twice.payment == Upsert(t, o).payment
      && RowsOf(twice, o.orderUid) == RowsOf(t, o.orderUid) + o.items + o.items
    ensures |o.items| > 0 ==> Upsert(Upsert(t, o), o) != Upsert(t, o)
  {
    var once := Upsert(t, o);
    var twice := Upsert(once, o);
    if |o.items| > 0 {
      assert |RowsOf(twice, o.orderUid)| > |RowsOf(once, o.orderUid)|;
    }
  }

  /** Committed saves keep the four tables in step: no uid ever has only some of its rows. */
  lemma UpsertKeepsConsistent(t: Tables, o: Order)
    requires Consistent(t)
    ensures Consistent(Upsert(t, o))
  {
  }

  /**
    Round trip: reading back a saved order without faults yields the order,
    except that its items follow whatever rows the uid already had.
   */
  lemma SaveThenLoad(t: Tables, o: Order)
    ensures Assemble(Upsert(t, o), o.orderUid, NoReadFaults) == Ok(o.(items := RowsOf(t, o.orderUid) + o.items))
    ensures o.orderUid !in t.items ==> Assemble(Upsert(t, o), o.orderUid, NoReadFaults) == Ok(o)
  {
    var t' := Upsert(t, o);
    assert Delivered(|RowsOf(t', o.orderUid)|, NoReadFaults) == |RowsOf(t', o.orderUid)|;
    if o.orderUid !in t.items {
      assert RowsOf(t, o.orderUid) + o.items == o.items;
    }
  }

  /** A uid with no header row is an error, never an empty success. */
  lemma MissingHeaderIsError(t: Tables, uid: string, f: ReadFaults)
    requires uid !in t.orders
    ensures Assemble(t, uid, f).Err?
    ensures !f.header ==> Assemble(t, uid, f) == Err(GetOrderFailed(NoRows))
  {
  }

  /** In consistent tables every listed uid loads in full when no query fails. */
  lemma ConsistentLoads(t: Tables, uid: string)
    requires Consistent(t) && uid in t.orders
    ensures Assemble(t, uid, NoReadFaults).Ok?
    ensures Assemble(t, uid, NoReadFaults).value.items == t.items[uid]
  {
  }

  /**
    A successful read is never partial: it carries the stored header, delivery,
    payment and every stored item row, and the uid it was asked for.
   */
  lemma AssembleNeverPartial(t: Tables, uid: string, f: ReadFaults)
    requires Assemble(t, uid, f).Ok?
    ensures var o := Assemble(t, uid, f).value;
      && uid in t.orders && uid in t.delivery && uid in t.payment
      && o.orderUid == uid
      && HeaderOf(o) == t.orders[uid]
      && o.delivery == t.delivery[uid]
      && o.payment == t.payment[uid]
      && o.items == RowsOf(t, uid)
  {
  }

  /**
    As written, a broken item stream is reported as success with only the
    rows read so far: one stored item, a stream that breaks before the first
    row, and GetOrder answers the order with no items and no error.
   */
  lemma AsWrittenReturnsTruncatedOrder(uid: string, h: Header, d: Delivery, p: Payment, it: Item)
    ensures var t := Tables(map[uid := h], map[uid := d], map[uid := p], map[uid := [it]]);
            var f := NoReadFaults.(streamBreak := Some(0));
      && AssembleAsWritten(t, uid, f) == Ok(Build(uid, h, d, p, []))
      && Assemble(t, uid, f) == Err(GetOrderFailed(QueryError))
  {
    var t := Tables(map[uid := h], map[uid := d], map[uid := p], map[uid := [it]]);
    var f := NoReadFaults.(streamBreak := Some(0));
    assert RowsOf(t, uid) == [it];
    assert Delivered(1, f) == 0;
  }

  /** Without a broken stream the written and the corrected reads agree. */
  lemma AsWrittenAgreesWithoutBreak(t: Tables, uid: string, f: ReadFaults)
    requires f.streamBreak.None?
    ensures AssembleAsWritten(t, uid, f) == Assemble(t, uid, f)
  {
    match Fetch(t, uid, f)
    case Err(_) =>
    case Ok((h, d, p, rows)) =>
      assert rows[..|rows|] == rows;
  }

  /** The bulk read is keyed by uid and covers exactly the uids of the orders table. */
  lemma SnapshotKeyedByUid(t: Tables, f: BulkFaults)
    requires BulkOk(t, f)
    ensures Snapshot(t, f).Keys == t.orders.Keys
    ensures forall uid | uid in Snapshot(t, f) :: Snapshot(t, f)[uid].orderUid == uid
  {
    forall uid | uid in Snapshot(t, f)
      ensures Snapshot(t, f)[uid].orderUid == uid
    {
      AssembleNeverPartial(t, uid, f.perOrder(uid));
    }
  }

  /** An empty orders table is read as an empty map, not as an error. */
  lemma EmptyStoreSnapshot(f: BulkFaults)
    requires !f.listQuery && !f.iteration
    ensures BulkOk(EmptyTables, f) && Snapshot(EmptyTables, f) == map[]
  {
  }
}

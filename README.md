# Order service core: a Dafny model

This project models the order-handling core of a Go service. The service
ingests orders from a Kafka topic and keeps them in PostgreSQL. It serves
reads through an in-memory cache whose entries expire after a time-to-live.
The model has five parts, one Dafny module each:

- `Models` (models.dfy): the order aggregate, made of a header, one delivery,
  one payment and a list of items. Its `validate` struct tags become the
  acceptance predicate `Valid`. The `e164` phone check and the `email` check
  come from the validation library. They are passed in as string predicates
  (`FormatRules`).
- `Caching` (cache.dfy): the TTL cache. It is a class with two maps,
  `orders` and `expires`. `SetOrder` and `ReStoreCache` update them in place.
  `GetOrder` and `GetAll` read them and change nothing. The clock reading
  `now` is a parameter. The spec functions `Lookup` and `Live` describe the
  two readers. They disagree at exactly one instant. `GetOrder` still answers
  an entry when `now` equals its expiry, while `GetAll` has already dropped it.
  `GetOrder` reads the expiry under the stored order's own uid, not under the
  key it was asked for. The model follows the code on both points. Only
  `GetAll` treats an entry as absent at its expiry instant.
- `Persistence` (postgres.dfy): the PostgreSQL store, modelled by the meaning
  of its SQL. The four tables are a `Tables` value: header, delivery and
  payment rows keyed by `order_uid`, plus a sequence of item rows per uid.
  `SaveUserData` is one transaction that upserts three rows and appends the
  items. It works on a private copy of the tables, and only its commit
  publishes that copy. Each database step that can fail has a failure flag
  passed in by the caller (`SaveFaults`, `ReadFaults`, `BulkFaults`).
  The constant `connected` stands for `pool != nil`, which is fixed when the
  store is built.
- `Services` (service.dfy): the orchestrator. Saves are write-through.
  Single reads go through the cache to the store and fill the cache on a
  miss. Bulk reads do the same and restore the whole cache from the store.
- `Ingestion` (consumer.dfy): the `ConsumeClaim` loop. It processes a
  sequence of messages in order. For each one it decodes (`decode` is a
  parameter), checks for empty parts, validates, saves through the service
  and marks. It returns a trace of `Saved` and `Marked` events. The loop body
  is the method `HandleMessage`. `Apply` gives the effect of one message on
  the store and the cache, and `After` folds it over the batch.

The item inserts in `SaveUserData` drop their errors. An insert can fail in
two ways, and the model keeps both:

- The server rejects the statement. In PostgreSQL that aborts the
  transaction, so the following `Commit` fails and the model reports
  `CommitFailed`.
- The driver refuses the statement before sending it, for instance a
  parameter it cannot encode. The transaction stays live and the commit goes
  ahead without that item row. `Written` is the order as actually stored.

`Commit` itself can report an error that the server did not cause to roll
back: the caller's deadline can expire while the commit's acknowledgement is
in flight. The flag `commitApplied` says the server applied the commit
anyway. `Durable` says when the writes reach the tables: every step before
`Commit` went through, no item insert aborted the transaction, and the server
applied the commit. The service caches only on a nil error, so such an order
is stored but not cached, and the consumer does not retry it.

## Model

| member | source | states |
|---|---|---|
| `Models.AcceptedOrderShape` | intrenal/models/model.go:5-57 | An accepted order has every `required` string non-empty, including the delivery's phone and email and the payment's transaction, provider and bank, and a non-zero creation time. Its phone is E.164 and its email well-formed. Its currency has exactly 3 characters and its amount is positive. Its three fee fields are non-negative. It has at least one item, and every item has positive price and total price, non-negative sale, non-zero chrt/nm ids and non-empty strings. |
| `Models.OneBadItemRejects` | intrenal/models/model.go:11 | `dive`: one invalid item anywhere in the list rejects the whole order. |
| `Models.UntaggedFieldsAreFree` | intrenal/models/model.go:13-38 | Rewriting the untagged fields never changes the verdict, in either direction. These are internal signature, shard key, sm id, oof shard, zip, region, request id and payment_dt. |
| `Models.UntaggedItemFieldsAreFree` | intrenal/models/model.go:52-56 | An item's size and status never change its verdict. |
| `Models.CurrencyLengthOnly` | intrenal/models/model.go:35 | Swapping the currency code of an accepted order keeps the order accepted exactly when the new code has length 3. Its content is never checked. |
| `Models.ZeroGateImpliedByValidation` | intrenal/kafka/consumer/consumer.go:40-49 | Validation alone already rejects a zero Delivery, a zero Payment and an empty item list. |
| `Caching.Cache.constructor` | intrenal/cache/cache.go:16-22 | NewCache starts with both maps empty and keeps the TTL. |
| `Caching.Cache.SetOrder` | intrenal/cache/cache.go:24-30 | Overwrites the value and the expiry (`now + ttl`) under the order's uid. No other key changes, and `Valid` is kept. |
| `Caching.Cache.GetOrder` | intrenal/cache/cache.go:32-46 | Answers `Lookup`: a miss for an absent key, a miss when `now` is strictly after the expiry stored under the order's own uid, the stored order otherwise. Nothing is modified. |
| `Caching.Cache.GetAll` | intrenal/cache/cache.go:48-70 | Returns exactly the entries with `now` strictly before their expiry. Reports not-found when none survives, including when the cache is empty. Nothing is modified. |
| `Caching.Cache.ReStoreCache` | intrenal/cache/cache.go:72-82 | `orders` becomes the argument, which is also returned. Every key of the argument gets expiry `now + ttl`. All other expiries are kept. `Valid` is kept. |
| `Caching.SetThenLookup` | intrenal/cache/cache.go:24-46 | After SetOrder at `at`, GetOrder of that uid hits with the order up to and including `at + ttl`, and misses after. |
| `Caching.SetLeavesOtherKeys` | intrenal/cache/cache.go:24-30 | On a cache keyed by uid, SetOrder leaves every other key's answer unchanged and keeps the cache keyed by uid. |
| `Caching.SetThenLive` | intrenal/cache/cache.go:24-70 | After SetOrder, GetAll's result changes only at the written uid: it is added if its new expiry is still ahead, removed otherwise. |
| `Caching.ExpiryInstantDisagreement` | intrenal/cache/cache.go:41-60 | For a cache keyed by uid, with the key present in both maps: at `now == expiry`, GetOrder still hits while GetAll already omits the entry. |
| `Caching.LiveAgreesWithLookup` | intrenal/cache/cache.go:32-70 | On a cache keyed by uid, every entry GetAll returns is also a GetOrder hit with the same order. A GetOrder hit that GetAll omits happens only at the expiry instant. |
| `Caching.RestoreThenLive` | intrenal/cache/cache.go:48-82 | With a positive TTL, GetAll at the restore instant returns exactly the restored map. |
| `Caching.RestoreThenLookup` | intrenal/cache/cache.go:32-82 | After a restore at `now`, each restored entry filed under its own uid is a GetOrder hit until `now + ttl`. |
| `Persistence.Postgres.constructor` | intrenal/db/postgres.go:17-20 | A store over the tables the database already holds (empty on a first start, populated on a restart), with or without a pool. |
| `Persistence.Postgres.SaveUserData` | intrenal/db/postgres.go:76-170 | A nil pool gives an error. Otherwise the error of the first failing step is returned: begin, header, delivery, payment, then commit, which also fails if the server rejected any item insert. The tables become `Upsert(old, Written(o, f))` exactly when the pool is connected and the writes are `Durable`: on every nil error, and on a commit error whose commit the server applied. Otherwise they stay as they were (the rollback). `Written(o, f)` lacks exactly the items the driver never sent. |
| `Persistence.Postgres.GetOrder` | intrenal/db/postgres.go:172-260 | A nil pool gives an error. Otherwise the result is the corrected read `Assemble` (see Findings): any failing or empty single-row query, or any failing item query or scan, gives an error; otherwise the whole aggregate. A broken item stream also gives an error, where the code as written returns the truncated order. |
| `Persistence.Postgres.GetOrders` | intrenal/db/postgres.go:262-297 | Succeeds exactly when the pool is present and the uid listing, every scan, every per-uid GetOrder and the row iteration succeed. The result then has exactly the uids of the orders table, each mapped to its GetOrder result. |
| `Persistence.DurableIffCommittedOrAckLost` | intrenal/db/postgres.go:81-169 | The writes are durable exactly when the save commits, or when it reports `CommitFailed` because the acknowledgement of a commit the server applied was lost on a transaction that no item insert aborted. |
| `Persistence.SaveOutcomeCommitsIff` | intrenal/db/postgres.go:81-169 | On a connected pool the save commits exactly when no step fails and the server rejects no item insert. An item insert the driver never sent does not stop the commit. |
| `Persistence.SentItems` | intrenal/db/postgres.go:161-169 | A committed save stores all the order's items when every insert was sent, and strictly fewer as soon as one was not. |
| `Persistence.UpsertEffect` | intrenal/db/postgres.go:93-167 | A committed save overwrites the header, delivery and payment rows of its uid. It appends its items after the rows already stored. No other uid's rows change. |
| `Persistence.ResaveDuplicatesItems` | intrenal/db/postgres.go:162-167 | Saving the same order twice leaves one header, delivery and payment row but duplicates every item row. So a save is not idempotent when the order has items. |
| `Persistence.UpsertKeepsConsistent` | intrenal/db/postgres.go:76-170 | Committed saves keep the four tables in step. No uid ever has only some of its rows. |
| `Persistence.SaveThenLoad` | intrenal/db/postgres.go:93-259 | Round trip: a fault-free read after a save returns the order, with its items after the rows the uid already had. It returns exactly the order when the uid was new. |
| `Persistence.MissingHeaderIsError` | intrenal/db/postgres.go:180-195 | A uid with no header row is reported as an error (`NoRows` when the query itself works), never as an empty success. |
| `Persistence.ConsistentLoads` | intrenal/db/postgres.go:180-259 | In consistent tables, every stored uid loads in full when no query fails. |
| `Persistence.AssembleNeverPartial` | intrenal/db/postgres.go:180-259 | A successful read carries the uid asked for and the stored header, delivery and payment. It carries every stored item row, never a prefix. |
| `Persistence.AsWrittenReturnsTruncatedOrder` | intrenal/db/postgres.go:239-259 | As written, an item stream that breaks before its first row yields an order with no items and no error. The corrected read reports an error. |
| `Persistence.AsWrittenAgreesWithoutBreak` | intrenal/db/postgres.go:239-259 | Without a broken stream, the as-written and corrected reads agree. |
| `Persistence.SnapshotKeyedByUid` | intrenal/db/postgres.go:268-296 | A successful bulk read covers exactly the uids of the orders table, and each order is filed under its own uid. |
| `Persistence.EmptyStoreSnapshot` | intrenal/db/postgres.go:274-296 | When the listing query and the row iteration succeed, an empty orders table is read as an empty map, not as an error. |
| `Services.Service.constructor` | intrenal/service/service.go:18-24 | The service holds the given store and cache. |
| `Services.Service.SaveOrder` | intrenal/service/service.go:26-38 | The store is written first and its error is returned. The store changes exactly as `SaveUserData` says: it holds the order as written whenever the writes are `Durable`, including a commit whose acknowledgement was lost. The cache is unchanged on any error. On a nil error it receives the whole order with expiry `now + ttl`. |
| `Services.Service.GetOrder` | intrenal/service/service.go:40-60 | A cache hit returns the cached order, changes nothing and does not depend on the store. On a miss the store's answer is returned. It is cached under the uid when it is an order, and nothing is cached when it is an error. |
| `Services.Service.GetOrders` | intrenal/service/service.go:62-81 | Live cache entries are returned unchanged when there are any. Otherwise the store's full snapshot is returned and replaces the cache's orders, each with expiry `now + ttl`. A store error leaves the cache unchanged. |
| `Services.Service.RestoreCache` | intrenal/service/service.go:83-95 | Succeeds exactly when the bulk read does. The cache's orders are then the store's contents, each uid of the orders table with expiry `now + ttl`. On failure nothing changes. |
| `Services.SaveThenRead` | intrenal/service/service.go:26-60 | After a committed save at `at` whose item inserts were all sent, so the stored order is the order itself, a read up to `at + ttl` is a cache hit with the order itself. After that, the cache misses and the store answers the order, with its items after any rows the uid already had. |
| `Services.UnsentItemDivergence` | intrenal/db/postgres.go:161-169 | For a uid with no stored item rows, when a save commits after the driver refused one of its item inserts, the store reads back an order with fewer items than the one the cache was given. A read of the uid after the cache entry expires therefore answers a different order. |
| `Services.LostAcknowledgementStoresUncached` | intrenal/service/service.go:26-38 | A save whose commit the server applied but whose acknowledgement was lost reports `CommitFailed`, so the cache does not get the order, yet a store read of the uid returns it. |
| `Services.ReadThroughFillsCache` | intrenal/service/service.go:48-59 | An order loaded on a miss at `now` is a cache hit for that uid until `now + ttl`. |
| `Services.RestoreServesStoreContents` | intrenal/service/service.go:83-95 | After a restore with a positive TTL, the bulk read at the same instant returns exactly the store's contents. Each of them is a single-read hit until `now + ttl`. |
| `Ingestion.Consumer.constructor` | intrenal/kafka/consumer/consumer.go:17-19 | The consumer holds the given service. |
| `Ingestion.Consumer.HandleMessage` | intrenal/kafka/consumer/consumer.go:33-57 | One pass of the loop body. An undecodable message, one with a zero delivery, zero payment or no items, or one failing validation causes no event and changes nothing. An admitted one causes a save then a mark whatever the save reports. The store and cache change exactly as `Apply` says. The store gets the order whenever the save's writes are durable. The cache gets it only when the save reports a commit. |
| `Ingestion.Consumer.ConsumeClaim` | intrenal/kafka/consumer/consumer.go:31-60 | The trace is `Expected(msgs)`: messages are handled in arrival order, rejected ones leave no event, and admitted ones give a save then a mark. The result is always nil. The store and cache end as `After`, the fold of every message's effect in arrival order, the `i`-th at instant `clock(i)`. |
| `Ingestion.NothingAdmittedNothingChanges` | intrenal/kafka/consumer/consumer.go:31-60 | A batch in which no message passes the gates leaves the store and the cache exactly as they were. |
| `Ingestion.BatchKeepsStoreConsistent` | intrenal/kafka/consumer/consumer.go:51-55 | However the saves of a batch fare, the four tables stay in step. |
| `Ingestion.BatchCachesAcceptedOrders` | intrenal/kafka/consumer/consumer.go:40-55 | After a batch, every cached order has an expiry. Each one is either an entry from before, untouched, or a valid order filed under its own uid. |
| `Ingestion.ExpectedAppend` | intrenal/kafka/consumer/consumer.go:32 | Handling is sequential: the trace of `a + b` is the trace of `a` followed by the trace of `b`. |
| `Ingestion.SavedOrdersAreAccepted` | intrenal/kafka/consumer/consumer.go:34-49 | Every order handed to SaveOrder decoded, passed the emptiness gate and is `Valid`. |
| `Ingestion.SaveThenMark` | intrenal/kafka/consumer/consumer.go:51-57 | Every save is immediately followed by the mark of the message it came from. Every mark immediately follows such a save. |
| `Ingestion.MarksMatchSaves` | intrenal/kafka/consumer/consumer.go:32-57 | The marked messages are exactly the admitted ones, in arrival order. There are as many saves as marks, and the k-th save is of the order the k-th marked message yields. |
| `Ingestion.MarkedIffAdmitted` | intrenal/kafka/consumer/consumer.go:32-57 | A message is marked exactly when it belongs to the batch and passes decoding, the emptiness gate and validation. |

## Findings

| source | as written | input that shows it | evidently intended | confidence | as-written member | corrected member |
|---|---|---|---|---|---|---|
| intrenal/db/postgres.go:239-259 | The item loop stops when `rows.Next()` returns false and never consults `rows.Err()`, so a broken row stream counts as the end of the rows | A uid with one stored item row whose row stream breaks before the first row is delivered: the order comes back with no items and a nil error | Report the iteration error, as `GetOrders` does after its own row loop (intrenal/db/postgres.go:292-294) | medium, not executed | `Persistence.AsWrittenReturnsTruncatedOrder` | `Persistence.AssembleNeverPartial` |

`Persistence.AssembleAsWritten` models the loop as written. `Persistence.Assemble`
is the corrected read, which `Postgres.GetOrder` and the rest of the model use.

## Left out

- Locking: the cache's `sync.RWMutex` is not modelled, and neither is its
  misuse (both writers take only the read lock). The model is sequential.
- Aliasing: the model does not capture that the map passed to `ReStoreCache`
  is shared with the caller, nor that cached `*Order` pointers are shared.
  Maps and orders are values.
- `time.Now()` and `time.Duration`: the clock is the parameter `now`, and
  times are unbounded integers. Overflow of `time.Add` is not modelled.
- Go's 64-bit integers are unbounded here. No field is computed on, so
  wrap-around cannot arise.
- `NewPostgres` (connection string, pgxpool, golang-migrate) is not modelled.
  The store's constructor takes the tables the migrated database holds and
  a flag for whether a pool exists.
- Persistence.Postgres.GetOrder: computes the corrected read `Assemble`. When
  the item row stream breaks, it reports an error, where the code as written
  returns the truncated order with a nil error (see Findings;
  `Persistence.AssembleAsWritten` models the code as written).
  `Postgres.GetOrders` and the service's `GetOrder`, `GetOrders` and
  `RestoreCache` inherit this. So the model never caches a truncated order,
  which the real service can.
- The SQL/pgx layer is replaced by the abstract tables. Database failures,
  including context deadlines, are the failure flags.
- Column type conversions are not modelled. Values are assumed to be stored
  and read back exactly, for instance the precision of `date_created`.
- The items query has no `ORDER BY`. The model returns item rows in
  insertion order, which PostgreSQL does not guarantee.
- `GetOrders` visits uids in `ORDER BY order_uid` order. The model visits
  them in an arbitrary order. This changes only which error is reported
  first. The model fixes the success case and says only that some error is
  reported otherwise.
- JSON decoding (`encoding/json`) is the `decode` parameter. The `e164` and
  `email` validators are the `FormatRules` predicates.
- Logging is not modelled anywhere.
- `Setup`, `Cleanup`, `subscribe` and `StartConsumer` are not modelled: they
  are broker session plumbing and a retry goroutine.
- The 5-second save deadline in the consumer is not modelled as a clock. A
  timeout is a failure flag of the save; one that expires during `Commit`
  may carry `commitApplied`.
- The `order != nil` test in the service's `GetOrder` always holds on a nil
  error, because the store reports a missing order as an error
  (`Persistence.MissingHeaderIsError`). For the same reason the HTTP
  handler's 404 branch is never reached through this service.
- intrenal/http/handler/handler.go is not part of this model (HTTP routing,
  JSON encoding, the producer send).
- cmd/main.go is not part of this model. At startup it calls `ReStoreCache`
  with an empty map, not `Service.RestoreCache`, so the cache starts empty.
- Also not part of this model: intrenal/config/config.go,
  intrenal/kafka/producer/producer.go and static/app.js.

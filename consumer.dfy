/**
  The ingestion loop (`Consumer.ConsumeClaim`, intrenal/kafka/consumer/consumer.go):
  messages are handled one at a time in arrival order; each is decoded,
  gated on emptiness, validated, saved through the service and marked.
  JSON decoding is not part of this model and is passed in as `decode`;
  the loop's log lines are left out. The trace records the two effects the
  loop has on the outside world, in the order it has them: SaveOrder calls
  and MarkMessage calls.
 */
module Ingestion {
  import opened Wrappers
  import opened Models
  import opened Persistence
  import opened Services

  /** A broker message: its offset and its payload. */
  datatype Message = Message(offset: int, value: seq<bv8>)

  datatype Event = Saved(order: Order) | Marked(msg: Message)

  /**
    The order a message yields after the three gates, in the loop's order:
    decoding, the emptiness check, struct validation.
   */
  function Admit(m: Message, decode: seq<bv8> -> Option<Order>, rules: FormatRules): Option<Order> {
    match decode(m.value)
    case None => None
    case Some(o) =>
      if o.delivery == EmptyDelivery || o.payment == EmptyPayment || |o.items| == 0 then None
      else if !Valid(o, rules) then None
      else Some(o)
  }

  /** What handling one message does: nothing for a rejected one, else save then mark. */
  function Handle(m: Message, decode: seq<bv8> -> Option<Order>, rules: FormatRules): seq<Event> {
    match Admit(m, decode, rules)
    case None => []
    case Some(o) => [Saved(o), Marked(m)]
  }

  /** The trace of a whole batch: each message's events after those of the messages before it. */
  function Expected(msgs: seq<Message>, decode: seq<bv8> -> Option<Order>, rules: FormatRules): seq<Event>
    decreases |msgs|
  {
    if msgs == [] then []
    else Expected(msgs[..|msgs| - 1], decode, rules) + Handle(msgs[|msgs| - 1], decode, rules)
  }

  /** The messages that pass all three gates, in arrival order. */
  function Admitted(msgs: seq<Message>, decode: seq<bv8> -> Option<Order>, rules: FormatRules): seq<Message>
    decreases |msgs|
  {
    if msgs == [] then []
    else Admitted(msgs[..|msgs| - 1], decode, rules)
         + (if Admit(msgs[|msgs| - 1], decode, rules).Some? then [msgs[|msgs| - 1]] else [])
  }

  /** The orders handed to SaveOrder, in call order. */
  function Saves(trace: seq<Event>): seq<Order> {
    if trace == [] then []
    else (if trace[0].Saved? then [trace[0].order] else []) + Saves(trace[1..])
  }

  /** The messages marked, in marking order. */
  function Marks(trace: seq<Event>): seq<Message> {
    if trace == [] then []
    else (if trace[0].Marked? then [trace[0].msg] else []) + Marks(trace[1..])
  }

  /** Whether SaveOrder commits `o`: there is a pool and no step of the transaction fails. */
  predicate Commits(connected: bool, f: SaveFaults, o: Order) {
    connected && SaveOutcome(f, |o.items|).None?
  }

  /** The part of the world a batch changes: the store's tables and the cache's two maps. */
  datatype Stored = Stored(tables: Tables, orders: map<string, Order>, expires: map<string, Time>)

  /**
    What handling one message at instant `at` does to the store and the cache:
    nothing for a rejected message. For an admitted order, the store upserts
    it as written (without any item insert the driver never sent) whenever
    the transaction's writes are durable, and the cache files the whole order
    under its uid, to expire `ttl` after `at`, only when the save reported a
    commit: a lost Commit acknowledgement stores the order but leaves it
    uncached.
   */
  function Apply(s: Stored, m: Message, decode: seq<bv8> -> Option<Order>, rules: FormatRules,
                 connected: bool, f: SaveFaults, at: Time, ttl: int): Stored
  {
    match Admit(m, decode, rules)
    case None => s
    case Some(o) =>
      var tables := if connected && Durable(f, |o.items|) then Upsert(s.tables, Written(o, f)) else s.tables;
      if Commits(connected, f, o) then
        Stored(tables, s.orders[o.orderUid := o], s.expires[o.orderUid := at + ttl])
      else s.(tables := tables)
  }

  /** The store and the cache once the first `n` messages of the batch are handled, in arrival order. */
  function After(msgs: seq<Message>, n: nat, decode: seq<bv8> -> Option<Order>, rules: FormatRules,
                 connected: bool, faults: nat -> SaveFaults, clock: nat -> Time, ttl: int, s: Stored): Stored
    requires n <= |msgs|
  {
    if n == 0 then s
    else Apply(After(msgs, n - 1, decode, rules, connected, faults, clock, ttl, s),
               msgs[n - 1], decode, rules, connected, faults(n - 1), clock(n - 1), ttl)
  }

  class Consumer {
    const service: Service

    /** The store's tables and the cache's maps as they stand. */
    ghost function State(): Stored
      reads service.store, service.cache
    {
      Stored(service.store.tables, service.cache.orders, service.cache.expires)
    }

    constructor (service: Service)
      ensures this.service == service
    {
      this.service := service;
    }

    /**
      The body of the loop over the claim's messages: the three gates, then the
      save and the mark. Returns the events it causes, in order.
     */
    method HandleMessage(msg: Message, decode: seq<bv8> -> Option<Order>, rules: FormatRules,
                         now: Time, f: SaveFaults)
      returns (events: seq<Event>)
      requires service.cache.Valid()
      modifies service.store`tables, service.cache
      ensures service.cache.Valid()
      ensures events == Handle(msg, decode, rules)
      ensures State() == Apply(old(State()), msg, decode, rules, service.store.connected, f, now, service.cache.ttl)
    {
      var decoded := decode(msg.value);
      if decoded.None? {
        return [];
      }
      var order := decoded.value;
      if order.delivery == EmptyDelivery || order.payment == EmptyPayment || |order.items| == 0 {
        return [];
      }
      if !Valid(order, rules) {
        return [];
      }
      // a failed save is only logged: the message is marked all the same
      var saveErr := service.SaveOrder(order, now, f);
      return [Saved(order), Marked(msg)];
    }

    /**
      Handles every message of the batch in order and always returns nil. A
      rejected message is skipped before MarkMessage; an admitted one is saved
      and then marked whatever the save reports. The `i`-th message is handled
      at instant `clock(i)` and its save meets the failures `faults(i)`.
     */
    method ConsumeClaim(msgs: seq<Message>, decode: seq<bv8> -> Option<Order>, rules: FormatRules,
                        clock: nat -> Time, faults: nat -> SaveFaults)
      returns (trace: seq<Event>, err: Option<Error>)
      requires service.cache.Valid()
      modifies service.store`tables, service.cache
      ensures service.cache.Valid()
      ensures trace == Expected(msgs, decode, rules)
      ensures err == None
      ensures State() == After(msgs, |msgs|, decode, rules, service.store.connected, faults, clock, service.cache.ttl,
                               old(State()))
    {
      trace := [];
      ghost var start := State();
      var i := 0;
      while i < |msgs|
        invariant 0 <= i <= |msgs|
        invariant service.cache.Valid()
        invariant trace == Expected(msgs[..i], decode, rules)
        invariant State() == After(msgs, i, decode, rules, service.store.connected, faults, clock, service.cache.ttl, start)
      {
        Advance(msgs, i, decode, rules, service.store.connected, faults, clock, service.cache.ttl, start);
        var events := HandleMessage(msgs[i], decode, rules, clock(i), faults(i));
        trace := trace + events;
        i := i + 1;
      }
      assert msgs[..|msgs|] == msgs;
      return trace, None;
    }
  }

  /** One more message: its events follow the trace so far, and its effect applies to the state so far. */
  lemma Advance(msgs: seq<Message>, i: nat, decode: seq<bv8> -> Option<Order>, rules: FormatRules,
                connected: bool, faults: nat -> SaveFaults, clock: nat -> Time, ttl: int, s: Stored)
    requires i < |msgs|
    ensures Expected(msgs[..i + 1], decode, rules) == Expected(msgs[..i], decode, rules) + Handle(msgs[i], decode, rules)
    ensures After(msgs, i + 1, decode, rules, connected, faults, clock, ttl, s)
            == Apply(After(msgs, i, decode, rules, connected, faults, clock, ttl, s),
                     msgs[i], decode, rules, connected, faults(i), clock(i), ttl)
  {
    assert msgs[..i + 1][..i] == msgs[..i];
  }

  /** Handling is sequential: a batch's trace is the traces of its parts, one after the other. */
  lemma {:induction false} ExpectedAppend(a: seq<Message>, b: seq<Message>, decode: seq<bv8> -> Option<Order>, rules: FormatRules)
    ensures Expected(a + b, decode, rules) == Expected(a, decode, rules) + Expected(b, decode, rules)
    decreases |b|
  {
    if b == [] {
      assert a + b == a;
    } else {
      var b' := b[..|b| - 1];
      assert (a + b)[..|a + b| - 1] == a + b';
      assert (a + b)[|a + b| - 1] == b[|b| - 1];
      var last := Handle(b[|b| - 1], decode, rules);
      assert Expected(a + b, decode, rules) == Expected(a + b', decode, rules) + last;
      ExpectedAppend(a, b', decode, rules);
      assert Expected(b, decode, rules) == Expected(b', decode, rules) + last;
    }
  }

  lemma {:induction false} SavesAppend(s: seq<Event>, t: seq<Event>)
    ensures Saves(s + t) == Saves(s) + Saves(t)
    decreases |s|
  {
    if s == [] {
      assert s + t == t;
    } else {
      var head := if s[0].Saved? then [s[0].order] else [];
      assert (s + t)[0] == s[0];
      assert (s + t)[1..] == s[1..] + t;
      assert Saves(s + t) == head + Saves(s[1..] + t);
      SavesAppend(s[1..], t);
      assert head + (Saves(s[1..]) + Saves(t)) == (head + Saves(s[1..])) + Saves(t);
    }
  }

  lemma {:induction false} MarksAppend(s: seq<Event>, t: seq<Event>)
    ensures Marks(s + t) == Marks(s) + Marks(t)
    decreases |s|
  {
    if s == [] {
      assert s + t == t;
    } else {
      var head := if s[0].Marked? then [s[0].msg] else [];
      assert (s + t)[0] == s[0];
      assert (s + t)[1..] == s[1..] + t;
      assert Marks(s + t) == head + Marks(s[1..] + t);
      MarksAppend(s[1..], t);
      assert head + (Marks(s[1..]) + Marks(t)) == (head + Marks(s[1..])) + Marks(t);
    }
  }

  /** Only orders that passed the emptiness gate and struct validation ever reach SaveOrder. */
  lemma {:induction false} SavedOrdersAreAccepted(msgs: seq<Message>, decode: seq<bv8> -> Option<Order>, rules: FormatRules)
    ensures forall k | 0 <= k < |Expected(msgs, decode, rules)| && Expected(msgs, decode, rules)[k].Saved? ::
      var o := Expected(msgs, decode, rules)[k].order;
      Valid(o, rules) && o.delivery != EmptyDelivery && o.payment != EmptyPayment && |o.items| > 0
    decreases |msgs|
  {
    if msgs != [] {
      SavedOrdersAreAccepted(msgs[..|msgs| - 1], decode, rules);
    }
  }

  /**
    Every SaveOrder call is immediately followed by the marking of the message
    its order came from, and every marking immediately follows such a save.
   */
  ghost predicate Paired(trace: seq<Event>, decode: seq<bv8> -> Option<Order>, rules: FormatRules) {
    && (forall k | 0 <= k < |trace| && trace[k].Saved? ::
          k + 1 < |trace| && trace[k + 1].Marked? && Admit(trace[k + 1].msg, decode, rules) == Some(trace[k].order))
    && (forall k | 0 <= k < |trace| && trace[k].Marked? ::
          k >= 1 && trace[k - 1].Saved? && Admit(trace[k].msg, decode, rules) == Some(trace[k - 1].order))
  }

  lemma PairedConcat(a: seq<Event>, b: seq<Event>, decode: seq<bv8> -> Option<Order>, rules: FormatRules)
    requires Paired(a, decode, rules) && Paired(b, decode, rules)
    ensures Paired(a + b, decode, rules)
  {
    var ab := a + b;
    forall k | 0 <= k < |ab| && ab[k].Saved?
      ensures k + 1 < |ab| && ab[k + 1].Marked? && Admit(ab[k + 1].msg, decode, rules) == Some(ab[k].order)
    {
      if k < |a| {
        assert ab[k] == a[k] && ab[k + 1] == a[k + 1];
      } else {
        assert ab[k] == b[k - |a|] && ab[k + 1] == b[k + 1 - |a|];
      }
    }
    forall k | 0 <= k < |ab| && ab[k].Marked?
      ensures k >= 1 && ab[k - 1].Saved? && Admit(ab[k].msg, decode, rules) == Some(ab[k - 1].order)
    {
      if k < |a| {
        assert ab[k] == a[k] && ab[k - 1] == a[k - 1];
      } else {
        assert ab[k] == b[k - |a|] && ab[k - 1] == b[k - 1 - |a|];
      }
    }
  }

  lemma {:induction false} SaveThenMark(msgs: seq<Message>, decode: seq<bv8> -> Option<Order>, rules: FormatRules)
    ensures Paired(Expected(msgs, decode, rules), decode, rules)
    decreases |msgs|
  {
    if msgs != [] {
      var init := msgs[..|msgs| - 1];
      SaveThenMark(init, decode, rules);
      PairedConcat(Expected(init, decode, rules), Handle(msgs[|msgs| - 1], decode, rules), decode, rules);
    }
  }

  /**
    The marked messages are exactly the admitted ones, in arrival order, and
    the k-th save is of the order the k-th marked message yields.
   */
  lemma {:induction false} MarksMatchSaves(msgs: seq<Message>, decode: seq<bv8> -> Option<Order>, rules: FormatRules)
    ensures Marks(Expected(msgs, decode, rules)) == Admitted(msgs, decode, rules)
    ensures |Saves(Expected(msgs, decode, rules))| == |Marks(Expected(msgs, decode, rules))|
    ensures forall k | 0 <= k < |Saves(Expected(msgs, decode, rules))| ::
      Admit(Marks(Expected(msgs, decode, rules))[k], decode, rules) == Some(Saves(Expected(msgs, decode, rules))[k])
    decreases |msgs|
  {
    if msgs != [] {
      var init, last := msgs[..|msgs| - 1], msgs[|msgs| - 1];
      MarksMatchSaves(init, decode, rules);
      var before, step := Expected(init, decode, rules), Handle(last, decode, rules);
      SavesAppend(before, step);
      MarksAppend(before, step);
      match Admit(last, decode, rules)
      case None =>
        assert Saves(step) == [] && Marks(step) == [];
      case Some(o) =>
        assert step[1..] == [Marked(last)] && step[1..][1..] == [];
        assert Saves(step[1..]) == [] && Marks(step[1..]) == [last];
    }
  }

  /** A message is marked if and only if it is one of the batch and passes every gate. */
  lemma {:induction false} MarkedIffAdmitted(msgs: seq<Message>, decode: seq<bv8> -> Option<Order>, rules: FormatRules, m: Message)
    ensures Marked(m) in Expected(msgs, decode, rules) <==> m in msgs && Admit(m, decode, rules).Some?
    decreases |msgs|
  {
    if msgs != [] {
      var init, last := msgs[..|msgs| - 1], msgs[|msgs| - 1];
      MarkedIffAdmitted(init, decode, rules, m);
      assert msgs == init + [last];
      assert Expected(msgs, decode, rules) == Expected(init, decode, rules) + Handle(last, decode, rules);
      assert Marked(m) in Handle(last, decode, rules) <==> m == last && Admit(last, decode, rules).Some?;
    }
  }

  /** A batch in which no message passes the gates leaves the store and the cache exactly as they were. */
  lemma {:induction false} NothingAdmittedNothingChanges(msgs: seq<Message>, n: nat, decode: seq<bv8> -> Option<Order>,
                                                         rules: FormatRules, connected: bool, faults: nat -> SaveFaults,
                                                         clock: nat -> Time, ttl: int, s: Stored)
    requires n <= |msgs| && Admitted(msgs[..n], decode, rules) == []
    ensures After(msgs, n, decode, rules, connected, faults, clock, ttl, s) == s
    decreases n
  {
    if n > 0 {
      assert msgs[..n][..n - 1] == msgs[..n - 1];
      assert msgs[..n][n - 1] == msgs[n - 1];
      NothingAdmittedNothingChanges(msgs, n - 1, decode, rules, connected, faults, clock, ttl, s);
    }
  }

  /** Handling a batch keeps the four tables in step: no uid ends up with only some of its rows. */
  lemma {:induction false} BatchKeepsStoreConsistent(msgs: seq<Message>, n: nat, decode: seq<bv8> -> Option<Order>,
                                                     rules: FormatRules, connected: bool, faults: nat -> SaveFaults,
                                                     clock: nat -> Time, ttl: int, s: Stored)
    requires n <= |msgs| && Consistent(s.tables)
    ensures Consistent(After(msgs, n, decode, rules, connected, faults, clock, ttl, s).tables)
    decreases n
  {
    if n > 0 {
      var before := After(msgs, n - 1, decode, rules, connected, faults, clock, ttl, s);
      BatchKeepsStoreConsistent(msgs, n - 1, decode, rules, connected, faults, clock, ttl, s);
      match Admit(msgs[n - 1], decode, rules)
      case None =>
      case Some(o) => UpsertKeepsConsistent(before.tables, Written(o, faults(n - 1)));
    }
  }

  /**
    A batch only ever caches accepted orders, each under its own uid, with an
    expiry of its own: every cache entry afterwards is either one that was
    there before, untouched, or a valid order filed under its uid.
   */
  lemma {:induction false} BatchCachesAcceptedOrders(msgs: seq<Message>, n: nat, decode: seq<bv8> -> Option<Order>,
                                                     rules: FormatRules, connected: bool, faults: nat -> SaveFaults,
                                                     clock: nat -> Time, ttl: int, s: Stored)
    requires n <= |msgs| && s.orders.Keys <= s.expires.Keys
    ensures var after := After(msgs, n, decode, rules, connected, faults, clock, ttl, s);
      && after.orders.Keys <= after.expires.Keys
      && forall uid | uid in after.orders ::
           || (uid in s.orders && after.orders[uid] == s.orders[uid] && after.expires[uid] == s.expires[uid])
           || (Valid(after.orders[uid], rules) && after.orders[uid].orderUid == uid)
    decreases n
  {
    if n > 0 {
      BatchCachesAcceptedOrders(msgs, n - 1, decode, rules, connected, faults, clock, ttl, s);
    }
  }
}

/**
 * One cycle of OutboxDispatcher.ExecuteAsync, which both services run over
 * their own outbox: fetch up to 50 unpublished rows oldest first; if there are
 * none, wait; otherwise publish each fetched row in turn, mark it processed
 * when the publish returns and count the attempt and keep the error when it
 * throws, and save the whole batch once. The broker is an oracle `publish`
 * that gives each row's publish outcome.
 */
module OutboxDispatch {
  import opened Entities
  import opened Query
  import opened OutboxStore

  const BatchSize: int := 50

  /** The exchange names the options classes default to. */
  const OrdersExchange: string := "orders.exchange"
  const PaymentsExchange: string := "payments.exchange"

  datatype PublishOutcome = Published | PublishFailed(error: string)

  /** One PublishAsync call: exchange, routing key, message type and body. */
  datatype Delivery = Delivery(exchange: string, routingKey: string, msgType: string, body: Payload)

  /** What a cycle did: waited on an empty fetch, or sent a batch. */
  datatype Cycle = Idle | Sent(deliveries: seq<Delivery>)

  /** The publish of row m: the empty routing key, the row's Type, its payload as the body. */
  function DeliveryOf(exchange: string, m: OutboxMessage): (d: Delivery)
    ensures d.exchange == exchange && d.routingKey == [] && d.msgType == m.msgType && d.body == m.payload
  {
    Delivery(exchange, "", m.msgType, m.payload)
  }

  /** The publishes of a batch, one per row, in fetch order. */
  function Deliveries(exchange: string, batch: seq<OutboxMessage>): (r: seq<Delivery>)
    ensures |r| == |batch|
    ensures forall i | 0 <= i < |batch| :: r[i] == DeliveryOf(exchange, batch[i])
  {
    seq(|batch|, i requires 0 <= i < |batch| => DeliveryOf(exchange, batch[i]))
  }

  /** The row as the loop body leaves it: marked processed, or with the failed attempt recorded. */
  function Settle(m: OutboxMessage, outcome: PublishOutcome, now: Instant): (r: OutboxMessage)
    ensures r.id == m.id && r.msgType == m.msgType && r.payload == m.payload && r.createdAt == m.createdAt
    ensures r.attempt == m.attempt + 1
    ensures outcome.Published? ==> r.processedAt == Some(now) && r.error == m.error
    ensures outcome.PublishFailed? ==> r.processedAt == m.processedAt && r.error == Some(outcome.error)
  {
    match outcome
    case Published => MarkProcessed(m, now)
    case PublishFailed(e) => RecordFailure(m, e)
  }

  /** The outbox rows after the loop has handled the first |batch| fetched rows. */
  function SettleAll(rows: seq<OutboxMessage>, batch: seq<OutboxMessage>, publish: OutboxMessage -> PublishOutcome, now: Instant)
    : (r: seq<OutboxMessage>)
    ensures |r| == |rows|
    ensures forall i | 0 <= i < |rows| :: r[i].id == rows[i].id
    ensures OutboxKeys(rows) ==> OutboxKeys(r)
    decreases |batch|
  {
    if batch == [] then rows
    else
      var n := |batch| - 1;
      UpdateRow(SettleAll(rows, batch[..n], publish, now), Settle(batch[n], publish(batch[n]), now))
  }

  /** The loop body's step: the next fetched row is settled over the rows handled so far. */
  lemma SettleAllStep(rows: seq<OutboxMessage>, batch: seq<OutboxMessage>, publish: OutboxMessage -> PublishOutcome,
                      now: Instant, i: nat)
    requires i < |batch|
    ensures SettleAll(rows, batch[..i + 1], publish, now) ==
            UpdateRow(SettleAll(rows, batch[..i], publish, now), Settle(batch[i], publish(batch[i]), now))
  {
    assert batch[..i + 1][..i] == batch[..i];
  }

  /** The Ids of a batch are pairwise distinct. */
  predicate DistinctIds(batch: seq<OutboxMessage>)
  {
    forall i, j | 0 <= i < j < |batch| :: batch[i].id != batch[j].id
  }

  /**
   * Every row of the batch is settled by its own publish outcome, whatever
   * happened to the others: a failure does not stop the rest of the batch.
   */
  lemma {:induction false} SettledByOwnOutcome(rows: seq<OutboxMessage>, batch: seq<OutboxMessage>,
                                               publish: OutboxMessage -> PublishOutcome, now: Instant, k: nat, i: nat)
    requires DistinctIds(batch) && k < |rows| && i < |batch| && rows[k].id == batch[i].id
    ensures SettleAll(rows, batch, publish, now)[k] == Settle(batch[i], publish(batch[i]), now)
    decreases |batch|
  {
    var n := |batch| - 1;
    if i < n {
      assert DistinctIds(batch[..n]);
      SettledByOwnOutcome(rows, batch[..n], publish, now, k, i);
    }
  }

  /** A row that is not in the batch is left as it was. */
  lemma {:induction false} UnbatchedRowKept(rows: seq<OutboxMessage>, batch: seq<OutboxMessage>,
                                            publish: OutboxMessage -> PublishOutcome, now: Instant, k: nat)
    requires k < |rows| && forall i | 0 <= i < |batch| :: batch[i].id != rows[k].id
    ensures SettleAll(rows, batch, publish, now)[k] == rows[k]
    decreases |batch|
  {
    if batch != [] {
      var n := |batch| - 1;
      UnbatchedRowKept(rows, batch[..n], publish, now, k);
    }
  }

  /** With unique keys, a row value occurs at most once. */
  lemma {:induction false} KeyedRowsOccurOnce(rows: seq<OutboxMessage>, m: OutboxMessage)
    requires OutboxKeys(rows)
    ensures multiset(rows)[m] <= 1
  {
    if rows != [] {
      assert rows == [rows[0]] + rows[1..];
      assert OutboxKeys(rows[1..]);
      KeyedRowsOccurOnce(rows[1..], m);
      if rows[0] == m {
        assert m !in rows[1..];
      }
    }
  }

  /** With unique keys, two rows with the same Id are the same row. */
  lemma SameIdSameRow(rows: seq<OutboxMessage>, x: OutboxMessage, y: OutboxMessage)
    requires OutboxKeys(rows) && x in rows && y in rows && x.id == y.id
    ensures x == y
  {
    var a :| 0 <= a < |rows| && rows[a] == x;
    var b :| 0 <= b < |rows| && rows[b] == y;
    assert !(a < b) && !(b < a);
  }

  /** A value found at two positions of a sequence occurs in it at least twice. */
  lemma RepeatedRowCountsTwice(s: seq<OutboxMessage>, i: nat, j: nat)
    requires i < j < |s| && s[i] == s[j]
    ensures multiset(s)[s[i]] >= 2
  {
    assert s == s[..j] + s[j..];
    assert s[i] in s[..j] && s[j] in s[j..];
  }

  /** A fetch from a keyed table holds each Id once. */
  lemma FetchHasDistinctIds(rows: seq<OutboxMessage>, take: int)
    requires OutboxKeys(rows)
    ensures DistinctIds(GetUnprocessed(rows, take))
  {
    var batch := GetUnprocessed(rows, take);
    var backlog := Backlog(rows);
    forall i, j | 0 <= i < j < |batch| ensures batch[i].id != batch[j].id {
      if batch[i].id == batch[j].id {
        SameIdSameRow(rows, batch[i], batch[j]);
        assert backlog[i] == batch[i] && backlog[j] == batch[j];
        RepeatedRowCountsTwice(backlog, i, j);
        WhereKeepsMatchingCopies(rows, Unprocessed, batch[i]);
        KeyedRowsOccurOnce(rows, batch[i]);
        assert false;
      }
    }
  }

  /** Settling rows rewrites no Type, so a length limit on Type that held of the rows and the batch still holds. */
  lemma {:induction false} SettleAllKeepsTypeLimit(rows: seq<OutboxMessage>, batch: seq<OutboxMessage>,
                                                   publish: OutboxMessage -> PublishOutcome, now: Instant, limit: nat)
    requires forall k | 0 <= k < |rows| :: |rows[k].msgType| <= limit
    requires forall i | 0 <= i < |batch| :: |batch[i].msgType| <= limit
    ensures forall k | 0 <= k < |rows| :: |SettleAll(rows, batch, publish, now)[k].msgType| <= limit
    decreases |batch|
  {
    if batch != [] {
      var n := |batch| - 1;
      SettleAllKeepsTypeLimit(rows, batch[..n], publish, now, limit);
    }
  }

  /** A fetched row whose publish returned is processed after the batch, so no later fetch returns its Id. */
  lemma PublishedRowLeavesBacklog(rows: seq<OutboxMessage>, batch: seq<OutboxMessage>,
                                  publish: OutboxMessage -> PublishOutcome, now: Instant, i: nat, take: int)
    requires OutboxKeys(rows) && DistinctIds(batch) && i < |batch| && batch[i] in rows
    requires publish(batch[i]).Published?
    ensures forall x | x in GetUnprocessed(SettleAll(rows, batch, publish, now), take) :: x.id != batch[i].id
  {
    var after := SettleAll(rows, batch, publish, now);
    var k :| 0 <= k < |rows| && rows[k] == batch[i];
    SettledByOwnOutcome(rows, batch, publish, now, k, i);
    forall x | x in GetUnprocessed(after, take) ensures x.id != batch[i].id {
      var j :| 0 <= j < |after| && after[j] == x;
      if j != k {
        assert rows[j].id != rows[k].id;
      }
    }
  }

  /**
   * A fetched row whose publish threw stays unprocessed with its attempt
   * counted and its error kept, so it is in the backlog the next cycle fetches from.
   */
  lemma FailedRowStaysQueued(rows: seq<OutboxMessage>, batch: seq<OutboxMessage>,
                             publish: OutboxMessage -> PublishOutcome, now: Instant, i: nat)
    requires DistinctIds(batch) && i < |batch| && batch[i] in rows && Unprocessed(batch[i])
    requires publish(batch[i]).PublishFailed?
    ensures Settle(batch[i], publish(batch[i]), now) in Backlog(SettleAll(rows, batch, publish, now))
  {
    var after := SettleAll(rows, batch, publish, now);
    var f := Settle(batch[i], publish(batch[i]), now);
    var k :| 0 <= k < |rows| && rows[k] == batch[i];
    SettledByOwnOutcome(rows, batch, publish, now, k, i);
    assert after[k] == f;
    WhereKeepsMatchingCopies(after, Unprocessed, f);
    assert f in multiset(Backlog(after));
  }
}

/** The dispatcher of the Payments service, on a PaymentsDb, publishing to the payments exchange. */
module PaymentsOutboxDispatcher {
  import opened Entities
  import opened OutboxStore
  import opened OutboxDispatch
  import opened PaymentsSchema
  import opened PaymentsData

  /** The unit of work after the loop: the batch's settled rows staged over the outbox. */
  function StageBatch(s: PaymentsCtx, batch: seq<OutboxMessage>, publish: OutboxMessage -> PublishOutcome, now: Instant): PaymentsCtx
  {
    s.(pending := s.pending.(outbox := SettleAll(s.pending.outbox, batch, publish, now)))
  }

  function CycleSpec(s: PaymentsCtx, publish: OutboxMessage -> PublishOutcome, now: Instant, conflict: bool)
    : (r: (Outcome<Cycle>, PaymentsCtx))
  {
    var batch := GetUnprocessed(s.committed.outbox, BatchSize);
    if batch == [] then (Ok(Idle), s)
    else
      var (saved, s1) := Save(StageBatch(s, batch, publish, now), conflict);
      (if saved == Saved then Ok(Sent(Deliveries(PaymentsExchange, batch)))
       else if saved == Conflict then Threw(ConcurrencyConflict)
       else Threw(StoreRejected), s1)
  }

  /** The foreach loop: publishes each fetched row in order and stages its settled state. */
  method PublishBatch(db: PaymentsDb, batch: seq<OutboxMessage>, publish: OutboxMessage -> PublishOutcome, now: Instant)
    returns (sent: seq<Delivery>)
    modifies db
    ensures db.State() == StageBatch(old(db.State()), batch, publish, now)
    ensures sent == Deliveries(PaymentsExchange, batch)
  {
    ghost var s0 := db.State();
    sent := [];
    var i := 0;
    while i < |batch|
      invariant 0 <= i <= |batch|
      invariant db.State() == StageBatch(s0, batch[..i], publish, now)
      invariant |sent| == i && forall j | 0 <= j < i :: sent[j] == DeliveryOf(PaymentsExchange, batch[j])
    {
      var m := batch[i];
      sent := sent + [DeliveryOf(PaymentsExchange, m)];
      match publish(m) {
        case Published =>
          db.MarkOutboxProcessed(m, now);
        case PublishFailed(e) =>
          db.RecordOutboxFailure(m, e);
      }
      SettleAllStep(s0.pending.outbox, batch, publish, now, i);
      i := i + 1;
    }
    assert batch[..i] == batch;
  }

  method RunCycle(db: PaymentsDb, publish: OutboxMessage -> PublishOutcome, now: Instant, conflict: bool)
    returns (r: Outcome<Cycle>)
    modifies db
    ensures (r, db.State()) == CycleSpec(old(db.State()), publish, now, conflict)
  {
    var batch := GetUnprocessed(db.committed.outbox, BatchSize);
    if |batch| == 0 {
      return Ok(Idle);
    }
    var sent := PublishBatch(db, batch, publish, now);
    var saved := db.SaveChanges(conflict);
    if saved == Saved {
      r := Ok(Sent(sent));
    } else if saved == Conflict {
      r := Threw(ConcurrencyConflict);
    } else {
      r := Threw(StoreRejected);
    }
  }

  /**
   * A cycle on a fresh unit of work: at most 50 rows are fetched, with
   * distinct Ids. An empty fetch only waits: no publish, no save. Otherwise
   * every fetched row is published once, in fetch order, to the payments
   * exchange, and one save commits the settled batch; nothing but the outbox
   * changes.
   */
  lemma CycleOutcome(s: PaymentsCtx, publish: OutboxMessage -> PublishOutcome, now: Instant, conflict: bool)
    requires Wf(s) && Clean(s)
    ensures var batch := GetUnprocessed(s.committed.outbox, BatchSize);
      var r := CycleSpec(s, publish, now, conflict);
      && |batch| <= BatchSize && DistinctIds(batch)
      && (batch == [] ==> r == (Ok(Idle), s))
      && (batch != [] ==>
            && r.0 == Ok(Sent(Deliveries(PaymentsExchange, batch)))
            && r.1.committed == s.committed.(outbox := SettleAll(s.committed.outbox, batch, publish, now))
            && r.1.saves == s.saves + 1 && Clean(r.1) && Wf(r.1))
  {
    var rows := s.committed.outbox;
    var batch := GetUnprocessed(rows, BatchSize);
    FetchHasDistinctIds(rows, BatchSize);
    if batch != [] {
      var s1 := StageBatch(s, batch, publish, now);
      var after := SettleAll(rows, batch, publish, now);
      assert s1.pending == s.committed.(outbox := after);
      assert !UpdatesVersionedRow(s1.committed, s1.pending);
      StampWithoutUpdate(s1.committed, s1.pending);
      forall m | m in after ensures m.id < s.nextId {
        var k :| 0 <= k < |after| && after[k] == m;
        assert rows[k] in s.committed.outbox;
      }
      assert Wf(s1);
    }
  }
}

/** The dispatcher of the Orders service, on an OrdersDb, publishing to the orders exchange. */
module OrdersOutboxDispatcher {
  import opened Entities
  import opened OutboxStore
  import opened OutboxDispatch
  import opened OrdersSchema
  import opened OrdersData

  function StageBatch(s: OrdersCtx, batch: seq<OutboxMessage>, publish: OutboxMessage -> PublishOutcome, now: Instant): OrdersCtx
  {
    s.(pending := s.pending.(outbox := SettleAll(s.pending.outbox, batch, publish, now)))
  }

  function CycleSpec(s: OrdersCtx, publish: OutboxMessage -> PublishOutcome, now: Instant, conflict: bool)
    : (r: (Outcome<Cycle>, OrdersCtx))
  {
    var batch := GetUnprocessed(s.committed.outbox, BatchSize);
    if batch == [] then (Ok(Idle), s)
    else
      var (saved, s1) := Save(StageBatch(s, batch, publish, now), conflict);
      (if saved == Saved then Ok(Sent(Deliveries(OrdersExchange, batch)))
       else if saved == Conflict then Threw(ConcurrencyConflict)
       else Threw(StoreRejected), s1)
  }

  /** The foreach loop: publishes each fetched row in order and stages its settled state. */
  method PublishBatch(db: OrdersDb, batch: seq<OutboxMessage>, publish: OutboxMessage -> PublishOutcome, now: Instant)
    returns (sent: seq<Delivery>)
    modifies db
    ensures db.State() == StageBatch(old(db.State()), batch, publish, now)
    ensures sent == Deliveries(OrdersExchange, batch)
  {
    ghost var s0 := db.State();
    sent := [];
    var i := 0;
    while i < |batch|
      invariant 0 <= i <= |batch|
      invariant db.State() == StageBatch(s0, batch[..i], publish, now)
      invariant |sent| == i && forall j | 0 <= j < i :: sent[j] == DeliveryOf(OrdersExchange, batch[j])
    {
      var m := batch[i];
      sent := sent + [DeliveryOf(OrdersExchange, m)];
      match publish(m) {
        case Published =>
          db.MarkOutboxProcessed(m, now);
        case PublishFailed(e) =>
          db.RecordOutboxFailure(m, e);
      }
      SettleAllStep(s0.pending.outbox, batch, publish, now, i);
      i := i + 1;
    }
    assert batch[..i] == batch;
  }

  method RunCycle(db: OrdersDb, publish: OutboxMessage -> PublishOutcome, now: Instant, conflict: bool)
    returns (r: Outcome<Cycle>)
    modifies db
    ensures (r, db.State()) == CycleSpec(old(db.State()), publish, now, conflict)
  {
    var batch := GetUnprocessed(db.committed.outbox, BatchSize);
    if |batch| == 0 {
      return Ok(Idle);
    }
    var sent := PublishBatch(db, batch, publish, now);
    var saved := db.SaveChanges(conflict);
    if saved == Saved {
      r := Ok(Sent(sent));
    } else if saved == Conflict {
      r := Threw(ConcurrencyConflict);
    } else {
      r := Threw(StoreRejected);
    }
  }

  /** Settling rows fetched from the table keeps the outbox within its key and Type-length constraints. */
  lemma SettledBatchFits(t: OrdersTables, batch: seq<OutboxMessage>, publish: OutboxMessage -> PublishOutcome, now: Instant)
    requires OrdersConstraints(t) && forall m | m in batch :: m in t.outbox
    ensures OrdersConstraints(t.(outbox := SettleAll(t.outbox, batch, publish, now)))
  {
    forall i | 0 <= i < |batch| ensures |batch[i].msgType| <= TypeLimit {
      assert batch[i] in batch;
      var k :| 0 <= k < |t.outbox| && t.outbox[k] == batch[i];
    }
    SettleAllKeepsTypeLimit(t.outbox, batch, publish, now, TypeLimit);
  }

  /**
   * A cycle on a fresh unit of work: at most 50 rows are fetched, with
   * distinct Ids. An empty fetch only waits: no publish, no save. Otherwise
   * every fetched row is published once, in fetch order, to the orders
   * exchange, and one save commits the settled batch; the orders are untouched.
   */
  lemma CycleOutcome(s: OrdersCtx, publish: OutboxMessage -> PublishOutcome, now: Instant, conflict: bool)
    requires Wf(s) && Clean(s)
    ensures var batch := GetUnprocessed(s.committed.outbox, BatchSize);
      var r := CycleSpec(s, publish, now, conflict);
      && |batch| <= BatchSize && DistinctIds(batch)
      && (batch == [] ==> r == (Ok(Idle), s))
      && (batch != [] ==>
            && r.0 == Ok(Sent(Deliveries(OrdersExchange, batch)))
            && r.1.committed == s.committed.(outbox := SettleAll(s.committed.outbox, batch, publish, now))
            && r.1.saves == s.saves + 1 && Clean(r.1) && Wf(r.1))
  {
    var rows := s.committed.outbox;
    var batch := GetUnprocessed(rows, BatchSize);
    FetchHasDistinctIds(rows, BatchSize);
    if batch != [] {
      var s1 := StageBatch(s, batch, publish, now);
      var after := SettleAll(rows, batch, publish, now);
      assert s1.pending == s.committed.(outbox := after);
      assert StampOrders(s1.pending, {}) == s1.pending;
      SettledBatchFits(s.committed, batch, publish, now);
      forall m | m in after ensures m.id < s.nextId {
        var k :| 0 <= k < |after| && after[k] == m;
        assert rows[k] in s.committed.outbox;
      }
      assert Wf(s1);
      var (saved, s2) := Save(s1, conflict);
    }
  }
}

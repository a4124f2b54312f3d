/**
 * The Orders store as OrdersDbContext.OnModelCreating configures it: the
 * Orders and OutboxMessages tables, their keys, the length limits on
 * Description and Type, the numeric(18,2) Amount column, and the row version
 * on orders that turns a lost update into a concurrency conflict.
 */
module OrdersSchema {
  import opened Entities
  import OutboxStore

  const DescriptionLimit: nat := 512
  const TypeLimit: nat := 256

  datatype OrdersTables = OrdersTables(orders: seq<Order>, outbox: seq<OutboxMessage>)

  const EmptyOrdersTables: OrdersTables := OrdersTables([], [])

  /** Order: key Id; Amount is numeric(18,2); Description has at most 512 characters. The UserId index is not unique. */
  predicate OrderConstraints(o: seq<Order>)
  {
    && (forall i | 0 <= i < |o| :: MoneyFits(o[i].amount) && |o[i].description| <= DescriptionLimit)
    && (forall i, j | 0 <= i < j < |o| :: o[i].id != o[j].id)
  }

  /** OutboxMessage: key Id; Type has at most 256 characters. */
  predicate OrdersOutboxConstraints(m: seq<OutboxMessage>)
  {
    OutboxStore.OutboxKeys(m) && forall i | 0 <= i < |m| :: |m[i].msgType| <= TypeLimit
  }

  predicate OrdersConstraints(t: OrdersTables)
  {
    OrderConstraints(t.orders) && OrdersOutboxConstraints(t.outbox)
  }

  /** The row version: every order row the commit updates is written with the next version. */
  function StampOrders(p: OrdersTables, modified: set<Guid>): (t: OrdersTables)
    ensures t.outbox == p.outbox && |t.orders| == |p.orders|
    ensures forall i | 0 <= i < |p.orders| ::
      t.orders[i] == if p.orders[i].id in modified then p.orders[i].(version := p.orders[i].version + 1) else p.orders[i]
  {
    p.(orders := seq(|p.orders|, i requires 0 <= i < |p.orders| =>
         if p.orders[i].id in modified then p.orders[i].(version := p.orders[i].version + 1) else p.orders[i]))
  }

  /** Writes `o` over the order row with the same Id. */
  function UpdateOrderRow(rows: seq<Order>, o: Order): (r: seq<Order>)
    ensures |r| == |rows|
    ensures forall i | 0 <= i < |rows| :: r[i] == if rows[i].id == o.id then o else rows[i]
  {
    seq(|rows|, i requires 0 <= i < |rows| => if rows[i].id == o.id then o else rows[i])
  }

  /** The order row with key `id` holds version v in `rows`. */
  predicate HasVersion(rows: seq<Order>, id: Guid, v: nat)
  {
    exists i | 0 <= i < |rows| :: rows[i].id == id && rows[i].version == v
  }

  /**
   * The check behind IsRowVersion: an UPDATE of order `id` that read version v
   * is accepted only while the stored row still has version v.
   */
  predicate OrderVersionCurrent(c: OrdersTables, id: Guid, v: nat)
  {
    HasVersion(c.orders, id, v)
  }

  /**
   * Of two writers that read order `id` at the same version and both update
   * it, the one that commits first stamps a new version, so the other's UPDATE
   * no longer matches: the second update cannot overwrite the first silently.
   */
  lemma FirstOrderWriterWins(c: OrdersTables, p: OrdersTables, modified: set<Guid>, id: Guid, v: nat)
    requires OrderConstraints(c.orders) && OrderVersionCurrent(c, id, v)
    requires |p.orders| == |c.orders|
    requires forall i | 0 <= i < |c.orders| :: p.orders[i].id == c.orders[i].id && p.orders[i].version == c.orders[i].version
    requires id in modified
    ensures !OrderVersionCurrent(StampOrders(p, modified), id, v)
  {
    var t := StampOrders(p, modified);
    var k :| 0 <= k < |c.orders| && c.orders[k].id == id && c.orders[k].version == v;
    forall i | 0 <= i < |t.orders| && t.orders[i].id == id
      ensures t.orders[i].version != v
    {
      assert c.orders[i].id == id;
      assert i == k;
    }
  }
}

/**
 * OrdersDbContext as a unit of work: the committed rows, the change tracker's
 * staged view of them, and the set of tracked orders it has seen modified.
 * Queries read the committed rows; adds and edits go to `pending`; the next
 * SaveChanges writes them, or throws and writes nothing.
 */
module OrdersData {
  import opened Entities
  import opened OrdersSchema
  import OutboxStore

  datatype OrdersCtx = OrdersCtx(
    committed: OrdersTables,
    pending: OrdersTables,
    modified: set<Guid>,   // ids of tracked orders in the Modified state
    nextId: Guid,
    saves: nat)

  /** Every generated Id in the tables is below n. */
  ghost predicate FreshFrom(t: OrdersTables, n: Guid)
  {
    (forall o | o in t.orders :: o.id < n) && (forall m | m in t.outbox :: m.id < n)
  }

  ghost predicate Wf(s: OrdersCtx)
  {
    OrdersConstraints(s.committed) && FreshFrom(s.committed, s.nextId) && FreshFrom(s.pending, s.nextId)
  }

  /** A unit of work with nothing staged. */
  predicate Clean(s: OrdersCtx)
  {
    s.pending == s.committed && s.modified == {}
  }

  const InitialCtx: OrdersCtx := OrdersCtx(EmptyOrdersTables, EmptyOrdersTables, {}, 0, 0)

  /** Guid.NewGuid: the next Id of the counter. */
  function NewId(s: OrdersCtx): (r: (Guid, OrdersCtx))
    ensures r.1.nextId == r.0 + 1
    ensures Wf(s) ==> Wf(r.1)
  {
    (s.nextId, s.(nextId := s.nextId + 1))
  }

  /**
   * SaveChangesAsync: with `conflict` set, another unit of work has committed
   * a new version of an order this one updates, and the save throws if it
   * updates any order. Otherwise the staged rows are written, modified orders
   * with a new version, if the constraints accept them. Each call is one save.
   */
  function Save(s: OrdersCtx, conflict: bool): (r: (SaveResult, OrdersCtx))
    ensures r.1.saves == s.saves + 1 && r.1.nextId == s.nextId
    ensures r.0 == Conflict <==> conflict && s.modified != {}
    ensures r.0 == Saved ==> Clean(r.1) && OrdersConstraints(r.1.committed) && r.1.committed == StampOrders(s.pending, s.modified)
    ensures r.0 != Saved ==> r.1 == s.(saves := r.1.saves)
    ensures Wf(s) ==> Wf(r.1)
  {
    var s' := s.(saves := s.saves + 1);
    if conflict && s.modified != {} then (Conflict, s')
    else
      var t := StampOrders(s.pending, s.modified);
      assert forall o | o in t.orders :: exists i | 0 <= i < |t.orders| :: t.orders[i] == o && t.orders[i].id == s.pending.orders[i].id;
      if OrdersConstraints(t) then (Saved, s'.(committed := t, pending := t, modified := {})) else (Rejected, s')
  }

  /** DbSet.Add: the row is staged for the next save; queries do not see it yet. */
  function StageOrder(s: OrdersCtx, o: Order): OrdersCtx
  {
    s.(pending := s.pending.(orders := s.pending.orders + [o]))
  }

  function StageOutbox(s: OrdersCtx, m: OutboxMessage): OrdersCtx
  {
    s.(pending := s.pending.(outbox := s.pending.outbox + [m]))
  }

  /** Assigning properties of a tracked order: the new row is staged and the order is marked Modified. */
  function UpdateOrder(s: OrdersCtx, o: Order): OrdersCtx
  {
    s.(pending := s.pending.(orders := UpdateOrderRow(s.pending.orders, o)), modified := s.modified + {o.id})
  }

  /** OutboxRepository.MarkAsProcessedAsync: DbSet.Update stages the marked row over the stored one. */
  function StageOutboxProcessed(s: OrdersCtx, m: OutboxMessage, now: Instant): OrdersCtx
  {
    s.(pending := s.pending.(outbox := OutboxStore.UpdateRow(s.pending.outbox, OutboxStore.MarkProcessed(m, now))))
  }

  /** The dispatcher's catch block on a tracked outbox row. */
  function StageOutboxFailure(s: OrdersCtx, m: OutboxMessage, error: string): OrdersCtx
  {
    s.(pending := s.pending.(outbox := OutboxStore.UpdateRow(s.pending.outbox, OutboxStore.RecordFailure(m, error))))
  }

  /** One OrdersDbContext; its whole state is State(). */
  class OrdersDb {
    var committed: OrdersTables
    var pending: OrdersTables
    var modified: set<Guid>
    var nextId: Guid
    var saves: nat

    function State(): OrdersCtx
      reads this
    {
      OrdersCtx(committed, pending, modified, nextId, saves)
    }

    constructor ()
      ensures State() == InitialCtx && Wf(State())
    {
      committed, pending, modified := EmptyOrdersTables, EmptyOrdersTables, {};
      nextId, saves := 0, 0;
    }

    method NewGuid() returns (id: Guid)
      modifies this
      ensures (id, State()) == NewId(old(State()))
    {
      id := nextId;
      nextId := nextId + 1;
    }

    method SaveChanges(conflict: bool) returns (r: SaveResult)
      modifies this
      ensures (r, State()) == Save(old(State()), conflict)
    {
      saves := saves + 1;
      if conflict && modified != {} {
        r := Conflict;
      } else {
        var t := StampOrders(pending, modified);
        if OrdersConstraints(t) {
          committed, pending, modified := t, t, {};
          r := Saved;
        } else {
          r := Rejected;
        }
      }
    }

    method AddOrder(o: Order)
      modifies this
      ensures State() == StageOrder(old(State()), o)
    {
      pending := pending.(orders := pending.orders + [o]);
    }

    method AddOutbox(m: OutboxMessage)
      modifies this
      ensures State() == StageOutbox(old(State()), m)
    {
      pending := pending.(outbox := pending.outbox + [m]);
    }

    method SetOrder(o: Order)
      modifies this
      ensures State() == UpdateOrder(old(State()), o)
    {
      pending := pending.(orders := UpdateOrderRow(pending.orders, o));
      modified := modified + {o.id};
    }

    method MarkOutboxProcessed(m: OutboxMessage, now: Instant)
      modifies this
      ensures State() == StageOutboxProcessed(old(State()), m, now)
    {
      pending := pending.(outbox := OutboxStore.UpdateRow(pending.outbox, OutboxStore.MarkProcessed(m, now)));
    }

    method RecordOutboxFailure(m: OutboxMessage, error: string)
      modifies this
      ensures State() == StageOutboxFailure(old(State()), m, error)
    {
      pending := pending.(outbox := OutboxStore.UpdateRow(pending.outbox, OutboxStore.RecordFailure(m, error)));
    }
  }
}

/**
 * PaymentStatusProcessor.HandleAsync: applies a payment result from the
 * Payments service to the order it names and tells the order's SignalR group.
 * Success finishes the order and anything else cancels it; the row is written
 * only when the status actually changes, but the group is told every time the
 * order exists. No status is final: a later result overwrites an earlier one.
 */
module PaymentStatusHandling {
  import opened Entities
  import opened OrdersSchema
  import opened OrdersData
  import opened OrdersRepositories

  /** The hub method the clients listen on. */
  const StatusChangedMethod: string := "OrderStatusChanged"

  /** A hub message: sent to the group named by the order's Id, carrying the Id and the status name. */
  datatype Notification = Notification(group: Guid, hubMethod: string, orderId: Guid, status: string)

  /** The status a payment result moves an order to. */
  function TargetStatus(p: PaymentStatus): (r: OrderStatus)
    ensures r == Finished <==> p == Success
    ensures r == Cancelled <==> p != Success
  {
    if p == Success then Finished else Cancelled
  }

  function StatusNotice(o: Order): Notification
  {
    Notification(o.id, StatusChangedMethod, o.id, StatusName(o.status))
  }

  /**
   * HandleAsync on the unit of work s: the notification sent, if any, or the
   * exception the save threw. `now` is the UtcNow reading and `conflict` the
   * database's answer to the save.
   */
  function HandleSpec(s: OrdersCtx, msg: OrderPaymentStatusChanged, now: Instant, conflict: bool)
    : (r: (Outcome<Option<Notification>>, OrdersCtx))
    ensures r.0 == Ok(None) <==> OrderById(s.committed, msg.orderId).None?
    ensures OrderById(s.committed, msg.orderId).None? ==> r.1 == s
    ensures r.0.Ok? && r.0.value.Some? ==>
      r.0.value.value == Notification(msg.orderId, StatusChangedMethod, msg.orderId, StatusName(TargetStatus(msg.status)))
    ensures OrderById(s.committed, msg.orderId).Some? && OrderById(s.committed, msg.orderId).value.status == TargetStatus(msg.status) ==>
      r == (Ok(Some(Notification(msg.orderId, StatusChangedMethod, msg.orderId, StatusName(TargetStatus(msg.status))))), s)
    ensures r.1.saves == s.saves +
      (if OrderById(s.committed, msg.orderId).Some? && OrderById(s.committed, msg.orderId).value.status != TargetStatus(msg.status) then 1 else 0)
  {
    match OrderById(s.committed, msg.orderId)
    case None => (Ok(None), s)
    case Some(o) =>
      var target := TargetStatus(msg.status);
      if o.status != target then
        var updated := o.(status := target, updatedAt := Some(now));
        var (saved, s1) := Save(UpdateOrder(s, updated), conflict);
        (if saved == Saved then Ok(Some(StatusNotice(updated)))
         else if saved == Conflict then Threw(ConcurrencyConflict)
         else Threw(StoreRejected), s1)
      else
        (Ok(Some(StatusNotice(o))), s)
  }

  method Handle(db: OrdersDb, msg: OrderPaymentStatusChanged, now: Instant, conflict: bool)
    returns (r: Outcome<Option<Notification>>)
    modifies db
    ensures (r, db.State()) == HandleSpec(old(db.State()), msg, now, conflict)
  {
    var found := OrderById(db.committed, msg.orderId);
    if found.None? {
      return Ok(None);
    }
    var order := found.value;
    var target := TargetStatus(msg.status);
    if order.status != target {
      order := order.(status := target, updatedAt := Some(now));
      db.SetOrder(order);
      var saved := db.SaveChanges(conflict);
      if saved == Conflict {
        return Threw(ConcurrencyConflict);
      } else if saved == Rejected {
        return Threw(StoreRejected);
      }
    }
    r := Ok(Some(StatusNotice(order)));
  }

  /** The committed orders after a handled message moved order `id` to `target` at `now`. */
  predicate StatusWritten(c: seq<Order>, c': seq<Order>, o: Order, target: OrderStatus, now: Instant)
  {
    && |c'| == |c|
    && forall i | 0 <= i < |c| ::
         c'[i] == if c[i].id == o.id then o.(status := target, updatedAt := Some(now), version := o.version + 1) else c[i]
  }

  /** Rewriting status and timestamp of a stored order keeps the Orders table within its constraints. */
  lemma StatusUpdateFits(t: OrdersTables, o: Order, updated: Order)
    requires OrdersConstraints(t) && o in t.orders
    requires updated == o.(status := updated.status, updatedAt := updated.updatedAt)
    ensures OrdersConstraints(StampOrders(t.(orders := UpdateOrderRow(t.orders, updated)), {o.id}))
  {
    var t' := StampOrders(t.(orders := UpdateOrderRow(t.orders, updated)), {o.id});
    assert forall i | 0 <= i < |t.orders| :: t'.orders[i].id == t.orders[i].id;
    assert forall i | 0 <= i < |t.orders| :: t'.orders[i].amount == t.orders[i].amount && t'.orders[i].description == t.orders[i].description;
  }

  /**
   * In a fresh unit of work, a message for a stored order whose status differs
   * from the target either commits the new status, timestamp and version of
   * that order alone and notifies, or (on a version conflict) throws without
   * writing or notifying. Whatever the old status was, Finished and Cancelled
   * included, the new one is the target.
   */
  lemma HandleChangesStatus(s: OrdersCtx, msg: OrderPaymentStatusChanged, now: Instant, conflict: bool)
    requires Wf(s) && Clean(s)
    requires OrderById(s.committed, msg.orderId).Some?
    requires OrderById(s.committed, msg.orderId).value.status != TargetStatus(msg.status)
    ensures var o := OrderById(s.committed, msg.orderId).value;
      var r := HandleSpec(s, msg, now, conflict);
      && (conflict ==> r.0 == Threw(ConcurrencyConflict) && r.1.committed == s.committed)
      && (!conflict ==>
            && r.0 == Ok(Some(Notification(o.id, StatusChangedMethod, o.id, StatusName(TargetStatus(msg.status)))))
            && StatusWritten(s.committed.orders, r.1.committed.orders, o, TargetStatus(msg.status), now)
            && r.1.committed.outbox == s.committed.outbox
            && Clean(r.1) && Wf(r.1))
  {
    var o := OrderById(s.committed, msg.orderId).value;
    var updated := o.(status := TargetStatus(msg.status), updatedAt := Some(now));
    StatusUpdateFits(s.committed, o, updated);
    var s1 := UpdateOrder(s, updated);
    assert s1.modified == {o.id};
    var (saved, s2) := Save(s1, conflict);
    assert !conflict ==> saved == Saved;
  }

  /** After a handled message the order it names is stored at the message's target status. */
  lemma StatusAfterHandle(s: OrdersCtx, msg: OrderPaymentStatusChanged, now: Instant, conflict: bool)
    requires Wf(s) && Clean(s)
    requires HandleSpec(s, msg, now, conflict).0.Ok? && OrderById(s.committed, msg.orderId).Some?
    ensures var after := HandleSpec(s, msg, now, conflict).1.committed;
      OrderById(after, msg.orderId).Some? && OrderById(after, msg.orderId).value.status == TargetStatus(msg.status)
  {
    var o := OrderById(s.committed, msg.orderId).value;
    var target := TargetStatus(msg.status);
    if o.status != target {
      HandleChangesStatus(s, msg, now, conflict);
      var after := HandleSpec(s, msg, now, conflict).1.committed;
      var i :| 0 <= i < |s.committed.orders| && s.committed.orders[i] == o;
      assert after.orders[i] == o.(status := target, updatedAt := Some(now), version := o.version + 1);
      OrderByIdIsUnambiguous(after, after.orders[i]);
    }
  }

  /**
   * Handling the same message again after it was applied writes nothing, does
   * not save and sends the same notification: the step is idempotent.
   */
  lemma HandleTwiceIsIdempotent(s: OrdersCtx, msg: OrderPaymentStatusChanged, now: Instant, now2: Instant, conflict: bool, conflict2: bool)
    requires Wf(s) && Clean(s)
    requires HandleSpec(s, msg, now, conflict).0.Ok?
    ensures var r1 := HandleSpec(s, msg, now, conflict);
      var r2 := HandleSpec(r1.1, msg, now2, conflict2);
      r2 == r1
  {
    if OrderById(s.committed, msg.orderId).Some? {
      StatusAfterHandle(s, msg, now, conflict);
    }
  }

  /**
   * No terminal-state guard: a failure report for a Finished order cancels
   * it, and a success report for a Cancelled order finishes it.
   */
  lemma LaterResultOverwritesFinalStatus(s: OrdersCtx, msg: OrderPaymentStatusChanged, now: Instant)
    requires Wf(s) && Clean(s)
    requires OrderById(s.committed, msg.orderId).Some?
    requires var o := OrderById(s.committed, msg.orderId).value;
      (o.status == Finished && msg.status == Failed) || (o.status == Cancelled && msg.status == Success)
    ensures var r := HandleSpec(s, msg, now, false);
      OrderById(r.1.committed, msg.orderId).Some? &&
      OrderById(r.1.committed, msg.orderId).value.status == (if msg.status == Success then Finished else Cancelled)
  {
    HandleChangesStatus(s, msg, now, false);
    StatusAfterHandle(s, msg, now, false);
  }
}

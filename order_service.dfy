/**
 * OrderService.CreateAsync: checks the amount, stages the new order and the
 * OrderPaymentRequested outbox row that asks the Payments service to settle
 * it, and commits both with one SaveChangesAsync. Its GetByIdAsync and
 * GetByUserAsync return OrdersRepositories.OrderById / OrdersOfUser unchanged.
 */
module OrderService {
  import opened Entities
  import opened Query
  import opened OrdersSchema
  import opened OrdersData
  import opened OrdersRepositories
  import OutboxStore

  const AmountNotPositive: string := "Amount must be positive"

  /** The outbox row CreateAsync queues: type "OrderPaymentRequested", the request as payload, not yet published. */
  function PaymentRequestRow(id: Guid, request: OrderPaymentRequested, now: Instant): (m: OutboxMessage)
    ensures m.msgType == OrderPaymentRequestedType && m.payload == PaymentRequested(request)
    ensures OutboxStore.Unprocessed(m) && m.attempt == 0 && m.error.None?
  {
    OutboxMessage(id, OrderPaymentRequestedType, PaymentRequested(request), now, None, 0, None)
  }

  /**
   * CreateAsync on the unit of work s. The order, the request message and the
   * outbox row each get a fresh Id; every UtcNow reading is `now`; `conflict`
   * is the database's answer to the save.
   */
  function CreateSpec(s: OrdersCtx, userId: Guid, amount: Cents, description: string, now: Instant, conflict: bool): (r: (Outcome<Order>, OrdersCtx))
    ensures amount <= 0 ==> r == (Threw(InvalidArgument(AmountNotPositive)), s)
    ensures r.0.Ok? ==> r.0.value == Order(s.nextId, userId, amount, description, New, now, None, 0)
    ensures amount > 0 ==> r.1.saves == s.saves + 1 && r.1.nextId == s.nextId + 3
  {
    if amount <= 0 then (Threw(InvalidArgument(AmountNotPositive)), s)
    else
      var (orderId, s1) := NewId(s);
      var order := Order(orderId, userId, amount, description, New, now, None, 0);
      var s2 := StageOrder(s1, order);
      var (messageId, s3) := NewId(s2);
      var request := OrderPaymentRequested(messageId, orderId, userId, amount, now);
      var (rowId, s4) := NewId(s3);
      var s5 := StageOutbox(s4, PaymentRequestRow(rowId, request, now));
      var (saved, s6) := Save(s5, conflict);
      (if saved == Saved then Ok(order) else if saved == Conflict then Threw(ConcurrencyConflict) else Threw(StoreRejected), s6)
  }

  method Create(db: OrdersDb, userId: Guid, amount: Cents, description: string, now: Instant, conflict: bool)
    returns (r: Outcome<Order>)
    modifies db
    ensures (r, db.State()) == CreateSpec(old(db.State()), userId, amount, description, now, conflict)
  {
    if amount <= 0 {
      return Threw(InvalidArgument(AmountNotPositive));
    }
    var orderId := db.NewGuid();
    var order := Order(orderId, userId, amount, description, New, now, None, 0);
    db.AddOrder(order);
    var messageId := db.NewGuid();
    var request := OrderPaymentRequested(messageId, orderId, userId, amount, now);
    var rowId := db.NewGuid();
    db.AddOutbox(PaymentRequestRow(rowId, request, now));
    var saved := db.SaveChanges(conflict);
    if saved == Saved {
      r := Ok(order);
    } else if saved == Conflict {
      r := Threw(ConcurrencyConflict);
    } else {
      r := Threw(StoreRejected);
    }
  }

  /** The new order fits the Orders table: numeric(18,2) amount and at most 512 characters of description. */
  predicate OrderFits(amount: Cents, description: string)
  {
    MoneyFits(amount) && |description| <= DescriptionLimit
  }

  /** The tables after a commit that appends one order and one outbox row to t. */
  predicate AppendedOrderAndRequest(t: OrdersTables, t': OrdersTables, o: Order, now: Instant)
  {
    && t'.orders == t.orders + [o]
    && |t'.outbox| == |t.outbox| + 1 && t'.outbox[..|t.outbox|] == t.outbox
    && var m := t'.outbox[|t.outbox|];
       && m.msgType == OrderPaymentRequestedType && m.createdAt == now && OutboxStore.Unprocessed(m)
       && m.payload.PaymentRequested?
       && m.payload.request.orderId == o.id && m.payload.request.userId == o.userId
       && m.payload.request.amount == o.amount && m.payload.request.createdAt == now
  }

  /** The staged tables of a fresh unit of work after the two Adds still satisfy the constraints. */
  lemma StagedCreateFits(t: OrdersTables, n: Guid, o: Order, m: OutboxMessage)
    requires OrdersConstraints(t) && FreshFrom(t, n)
    requires o.id >= n && m.id >= n && MoneyFits(o.amount) && |o.description| <= DescriptionLimit && |m.msgType| <= TypeLimit
    ensures OrdersConstraints(OrdersTables(t.orders + [o], t.outbox + [m]))
  {
    var os := t.orders + [o];
    forall i, j | 0 <= i < j < |os| ensures os[i].id != os[j].id {
      assert os[i] in t.orders;
      if j < |t.orders| { assert os[j] in t.orders; }
    }
    var ms := t.outbox + [m];
    forall i, j | 0 <= i < j < |ms| ensures ms[i].id != ms[j].id {
      assert ms[i] in t.outbox;
      if j < |t.outbox| { assert ms[j] in t.outbox; }
    }
  }

  /**
   * In a fresh unit of work, CreateAsync succeeds exactly when the amount is
   * positive and the row fits the table; it then commits the order it returns
   * (status New, the request's user, amount and description) together with
   * one unpublished OrderPaymentRequested row for that order, in one save,
   * and the order is found by Id from then on.
   */
  lemma CreateOutcome(s: OrdersCtx, userId: Guid, amount: Cents, description: string, now: Instant, conflict: bool)
    requires Wf(s) && Clean(s)
    ensures var r := CreateSpec(s, userId, amount, description, now, conflict);
      && (r.0.Ok? <==> amount > 0 && OrderFits(amount, description))
      && (r.0.Ok? ==>
            && r.0.value.status == New && r.0.value.userId == userId
            && r.0.value.amount == amount && r.0.value.description == description
            && AppendedOrderAndRequest(s.committed, r.1.committed, r.0.value, now)
            && OrderById(r.1.committed, r.0.value.id) == Some(r.0.value)
            && Clean(r.1) && Wf(r.1))
      && (amount > 0 && !OrderFits(amount, description) ==> r.0 == Threw(StoreRejected) && r.1.committed == s.committed)
  {
    if amount > 0 {
      var (orderId, s1) := NewId(s);
      var order := Order(orderId, userId, amount, description, New, now, None, 0);
      var s2 := StageOrder(s1, order);
      var (messageId, s3) := NewId(s2);
      var request := OrderPaymentRequested(messageId, orderId, userId, amount, now);
      var (rowId, s4) := NewId(s3);
      var row := PaymentRequestRow(rowId, request, now);
      var s5 := StageOutbox(s4, row);
      assert s5.modified == {};
      assert StampOrders(s5.pending, {}) == s5.pending;
      if OrderFits(amount, description) {
        StagedCreateFits(s.committed, s.nextId, order, row);
        assert s5.pending == OrdersTables(s.committed.orders + [order], s.committed.outbox + [row]);
        var (saved, s6) := Save(s5, conflict);
        assert saved == Saved;
        OrderByIdIsUnambiguous(s6.committed, order);
      } else {
        assert s5.pending.orders[|s5.pending.orders| - 1] == order;
        assert !OrdersConstraints(s5.pending);
      }
    }
  }
}

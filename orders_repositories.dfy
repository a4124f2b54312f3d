/**
 * OrdersRepository: GetByIdAsync and GetByUserAsync read the stored orders;
 * AddAsync and SaveChangesAsync are the OrdersDb staging method and
 * SaveChanges. OrderService.GetByIdAsync and GetByUserAsync return these
 * queries' results as they are.
 */
module OrdersRepositories {
  import opened Entities
  import opened Query
  import opened OrdersSchema
  import opened OrdersData
  import OutboxStore

  /** GetByIdAsync: FirstOrDefault(o => o.Id == id). */
  function OrderById(t: OrdersTables, id: Guid): (r: Option<Order>)
    ensures r.Some? ==> r.value in t.orders && r.value.id == id
    ensures r.None? <==> forall o :: o in t.orders ==> o.id != id
  {
    FirstWhere(t.orders, (o: Order) => o.id == id)
  }

  /** OrderByDescending(CreatedAtUtc) is an ascending sort on the negated key. */
  function NewestFirst(o: Order): int
  {
    -(o.createdAt as int)
  }

  predicate OfUser(userId: Guid, o: Order)
  {
    o.userId == userId
  }

  /**
   * GetByUserAsync: Where(o => o.UserId == userId), OrderByDescending(CreatedAtUtc).
   * The user's orders and only those, newest first.
   */
  function OrdersOfUser(t: OrdersTables, userId: Guid): (r: seq<Order>)
    ensures forall o :: o in r <==> o in t.orders && o.userId == userId
    ensures forall i, j | 0 <= i < j < |r| :: r[i].createdAt >= r[j].createdAt
    ensures multiset(r) == multiset(Where(t.orders, o => OfUser(userId, o)))
  {
    var w := Where(t.orders, o => OfUser(userId, o));
    var r := SortBy(w, NewestFirst);
    assert SortedBy(r, NewestFirst);
    assert forall o :: o in r <==> o in multiset(r);
    assert forall o :: o in w <==> o in multiset(w);
    r
  }

  /** Every copy of every order of the user is listed, and nothing else: the listing is a reordering of the filter. */
  lemma {:induction false} OrdersOfUserIsExact(t: OrdersTables, userId: Guid, o: Order)
    ensures multiset(OrdersOfUser(t, userId))[o] == if o.userId == userId then multiset(t.orders)[o] else 0
  {
    var w := Where(t.orders, o => OfUser(userId, o));
    if o.userId == userId {
      WhereKeepsMatchingCopies(t.orders, o => OfUser(userId, o), o);
    } else {
      assert o !in w;
    }
  }

  /** With Id as the key, the lookup returns the one order with that Id. */
  lemma OrderByIdIsUnambiguous(t: OrdersTables, o: Order)
    requires OrderConstraints(t.orders) && o in t.orders
    ensures OrderById(t, o.id) == Some(o)
  {
    var r := OrderById(t, o.id).value;
    var i :| 0 <= i < |t.orders| && t.orders[i] == r;
    var j :| 0 <= j < |t.orders| && t.orders[j] == o;
    assert !(i < j) && !(j < i);
  }

  /**
   * AddAsync only stages: the new order is not found until SaveChangesAsync
   * commits it; from then on both queries find it.
   */
  lemma StagedOrderIsFoundOnlyAfterSave(s: OrdersCtx, o: Order, conflict: bool)
    requires Wf(s) && Clean(s) && o.id >= s.nextId
    requires MoneyFits(o.amount) && |o.description| <= DescriptionLimit
    ensures OrderById(StageOrder(s, o).committed, o.id).None?
    ensures Save(StageOrder(s, o), conflict).0 == Saved
    ensures OrderById(Save(StageOrder(s, o), conflict).1.committed, o.id) == Some(o)
    ensures o in OrdersOfUser(Save(StageOrder(s, o), conflict).1.committed, o.userId)
  {
    var p := StageOrder(s, o).pending;
    assert StampOrders(p, {}) == p;
    assert OrderConstraints(p.orders) by {
      forall i, j | 0 <= i < j < |p.orders| ensures p.orders[i].id != p.orders[j].id {
        assert p.orders[i] in s.committed.orders;
        if j < |p.orders| - 1 {
          assert p.orders[j] in s.committed.orders;
        }
      }
    }
    FirstWhereAppend(s.committed.orders, o, (x: Order) => x.id == o.id);
  }

  /**
   * OutboxRepository.AddAsync only stages: the committed outbox is unchanged
   * until SaveChangesAsync, which commits the row, and the unpublished row is
   * then in the backlog the dispatcher fetches from.
   */
  lemma StagedOutboxIsQueuedOnlyAfterSave(s: OrdersCtx, m: OutboxMessage, conflict: bool)
    requires Wf(s) && Clean(s) && m.id >= s.nextId && OutboxStore.Unprocessed(m) && |m.msgType| <= TypeLimit
    ensures StageOutbox(s, m).committed == s.committed
    ensures Save(StageOutbox(s, m), conflict).0 == Saved
    ensures Save(StageOutbox(s, m), conflict).1.committed.outbox == s.committed.outbox + [m]
    ensures m in OutboxStore.Backlog(Save(StageOutbox(s, m), conflict).1.committed.outbox)
  {
    var p := StageOutbox(s, m).pending;
    assert StampOrders(p, {}) == p;
    assert OutboxStore.OutboxKeys(p.outbox) by {
      forall i, j | 0 <= i < j < |p.outbox| ensures p.outbox[i].id != p.outbox[j].id {
        assert p.outbox[i] in s.committed.outbox;
        if j < |p.outbox| - 1 {
          assert p.outbox[j] in s.committed.outbox;
        }
      }
    }
    WhereKeepsMatchingCopies(p.outbox, OutboxStore.Unprocessed, m);
    assert m in multiset(OutboxStore.Backlog(p.outbox));
  }
}

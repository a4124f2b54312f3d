/**
 * PaymentProcessor.ProcessAsync of the Payments service as one database
 * transaction: inbox deduplication by MessageId, the account lookup, the
 * debit staged by DebitWithoutSaveAsync, the OrderPaymentStatusChanged event
 * in a new outbox row, the inbox record marked processed, and one final save
 * and commit. A failed save rolls the transaction back; a version conflict
 * also clears the tracker, and the exception goes back to the caller so that
 * a redelivery runs the step again from the start.
 */
module PaymentStep {
  import opened Entities
  import opened PaymentsSchema
  import opened PaymentsData
  import opened PaymentsRepositories
  import opened Ledger

  const AccountNotFound: string := "Account not found"
  const DebitFailed: string := "Debit failed"

  /** What one call leaves behind: nothing for a message already processed, else the event it recorded. */
  datatype StepOutcome = AlreadyProcessed | Recorded(change: OrderPaymentStatusChanged)

  /**
   * The inbox record the step works on: the stored one of a message seen before
   * but not processed, or a new one with a fresh Id, staged.
   */
  function ReceiveInbox(s: PaymentsCtx, msg: OrderPaymentRequested, existing: Option<InboxMessage>, now: Instant)
    : (r: (InboxMessage, Handle, PaymentsCtx))
    ensures Attached(r.2, r.1) && r.1.id == r.0.id
    ensures r.2.committed == s.committed && r.2.pending.balances == s.pending.balances
  {
    match existing
    case Some(m) => (m, Track(s, m.id), s)
    case None =>
      var (id, s1) := NewId(s);
      var m := InboxMessage(id, msg.messageId, OrderPaymentRequestedType, msg, now, None, None, 0);
      (m, Track(s1, id), StageInbox(s1, m))
  }

  /** The payment status and reason a debit's (Success, Error) pair is reported as. */
  function ReportedStatus(d: DebitResult): (r: (PaymentStatus, Option<string>))
    ensures r.0 == Success <==> d.success
    ensures r.0 == Failed ==> r.1 == Some(if d.error.Some? then d.error.value else DebitFailed)
    ensures r.0 == Success ==> r.1.None?
  {
    if d.success then (Success, None)
    else (Failed, Some(if d.error.Some? then d.error.value else DebitFailed))
  }

  /** The status and reason that the account lookup and DebitWithoutSaveAsync settle on. */
  function Decide(s: PaymentsCtx, msg: OrderPaymentRequested, now: Instant)
    : (r: (Outcome<(PaymentStatus, Option<string>)>, PaymentsCtx))
    requires NoVersionedUpdate(s)
  {
    match AccountByUserId(s.committed, msg.userId)
    case None => (Ok((Failed, Some(AccountNotFound))), s)
    case Some(account) =>
      var (d, s1) := DebitWithoutSaveSpec(s, account.id, msg.orderId, msg.amount, now);
      if d.Threw? then (Threw(d.fault), s1) else (Ok(ReportedStatus(d.value)), s1)
  }

  /**
   * The end of the step: the event in a new outbox row, the inbox record marked
   * processed through its handle, one save, and the transaction committed. A
   * failed save rolls the transaction back to `snapshot`; a conflict also
   * clears the tracker before the exception is rethrown.
   */
  function Record(s: PaymentsCtx, msg: OrderPaymentRequested, status: PaymentStatus, reason: Option<string>,
                  inbox: InboxMessage, h: Handle, conflict: bool, now: Instant, snapshot: PaymentsTables)
    : (Outcome<StepOutcome>, PaymentsCtx)
  {
    var (eventId, s1) := NewId(s);
    var evt := OrderPaymentStatusChanged(eventId, msg.orderId, msg.userId, status, reason, now);
    var (rowId, s2) := NewId(s1);
    var row := OutboxMessage(rowId, OrderPaymentStatusChangedType, PaymentStatusChanged(evt), now, None, 0, None);
    var s3 := SetInboxProcessed(StageOutbox(s2, row), h, inbox, now);
    var (res, s4) := Save(s3, conflict);
    match res
    case Saved => (Ok(Recorded(evt)), s4)
    case Conflict => (Threw(ConcurrencyConflict), Clear(Rollback(s4, snapshot)))
    case Rejected => (Threw(StoreRejected), Rollback(s4, snapshot))
  }

  /** ProcessAsync(message); `conflict` says whether the final save meets a concurrent writer. */
  function ProcessSpec(s: PaymentsCtx, msg: OrderPaymentRequested, conflict: bool, now: Instant)
    : (Outcome<StepOutcome>, PaymentsCtx)
    requires NoVersionedUpdate(s)
  {
    var existing := InboxByMessageId(s.committed, msg.messageId);
    if existing.Some? && existing.value.processedAt.Some? then (Ok(AlreadyProcessed), s)
    else
      var (inbox, h, s1) := ReceiveInbox(s, msg, existing, now);
      var (v, s2) := Decide(s1, msg, now);
      if v.Threw? then (Threw(v.fault), Rollback(s2, s.committed))
      else Record(s2, msg, v.value.0, v.value.1, inbox, h, conflict, now, s.committed)
  }

  method Receive(db: PaymentsDb, msg: OrderPaymentRequested, existing: Option<InboxMessage>, now: Instant)
    returns (inbox: InboxMessage, h: Handle)
    modifies db
    ensures (inbox, h, db.State()) == ReceiveInbox(old(db.State()), msg, existing, now)
  {
    if existing.Some? {
      return existing.value, Track(db.State(), existing.value.id);
    }
    var id := db.NewGuid();
    inbox := InboxMessage(id, msg.messageId, OrderPaymentRequestedType, msg, now, None, None, 0);
    h := db.AddInbox(inbox);
  }

  method DecideOnce(db: PaymentsDb, msg: OrderPaymentRequested, now: Instant)
    returns (r: Outcome<(PaymentStatus, Option<string>)>)
    requires NoVersionedUpdate(db.State())
    modifies db
    ensures (r, db.State()) == Decide(old(db.State()), msg, now)
  {
    var account := AccountByUserId(db.committed, msg.userId);
    if account.None? {
      return Ok((Failed, Some(AccountNotFound)));
    }
    var d := DebitWithoutSave(db, account.value.id, msg.orderId, msg.amount, now);
    if d.Threw? {
      return Threw(d.fault);
    }
    r := Ok(ReportedStatus(d.value));
  }

  method RecordOnce(db: PaymentsDb, msg: OrderPaymentRequested, status: PaymentStatus, reason: Option<string>,
                    inbox: InboxMessage, h: Handle, conflict: bool, now: Instant, snapshot: PaymentsTables)
    returns (r: Outcome<StepOutcome>)
    modifies db
    ensures (r, db.State()) == Record(old(db.State()), msg, status, reason, inbox, h, conflict, now, snapshot)
  {
    var eventId := db.NewGuid();
    var evt := OrderPaymentStatusChanged(eventId, msg.orderId, msg.userId, status, reason, now);
    var rowId := db.NewGuid();
    db.AddOutbox(OutboxMessage(rowId, OrderPaymentStatusChangedType, PaymentStatusChanged(evt), now, None, 0, None));
    db.MarkInboxProcessed(h, inbox, now);
    var res := db.SaveChanges(conflict);
    if res == Saved {
      return Ok(Recorded(evt));
    }
    db.RollbackTo(snapshot);
    if res == Conflict {
      db.ClearTracker();
      r := Threw(ConcurrencyConflict);
    } else {
      r := Threw(StoreRejected);
    }
  }

  method Process(db: PaymentsDb, msg: OrderPaymentRequested, conflict: bool, now: Instant)
    returns (r: Outcome<StepOutcome>)
    requires NoVersionedUpdate(db.State())
    modifies db
    ensures (r, db.State()) == ProcessSpec(old(db.State()), msg, conflict, now)
  {
    var snapshot := db.committed;
    var existing := InboxByMessageId(db.committed, msg.messageId);
    if existing.Some? && existing.value.processedAt.Some? {
      return Ok(AlreadyProcessed);
    }
    var inbox, h := Receive(db, msg, existing, now);
    var v := DecideOnce(db, msg, now);
    if v.Threw? {
      db.RollbackTo(snapshot);
      return Threw(v.fault);
    }
    r := RecordOnce(db, msg, v.value.0, v.value.1, inbox, h, conflict, now, snapshot);
  }
}

/** What the single-transaction payment step promises, stated over its specification. */
module PaymentStepFacts {
  import opened Entities
  import opened PaymentsSchema
  import opened PaymentsData
  import opened PaymentsRepositories
  import opened Ledger
  import opened LedgerFacts
  import opened PaymentStep

  /** The request passes the account lookup and both short-circuits of the debit, so a debit is staged. */
  predicate Debits(t: PaymentsTables, msg: OrderPaymentRequested)
  {
    && AccountByUserId(t, msg.userId).Some?
    && TransactionForOrder(t, msg.orderId).None?
    && BalanceOf(t, AccountByUserId(t, msg.userId).value.id) >= msg.amount
  }

  /** The status and reason the step reports for a request, read off the stored tables. */
  function Verdict(t: PaymentsTables, msg: OrderPaymentRequested): (PaymentStatus, Option<string>)
  {
    match AccountByUserId(t, msg.userId)
    case None => (Failed, Some(AccountNotFound))
    case Some(a) =>
      if TransactionForOrder(t, msg.orderId).Some? then (Success, None)
      else if BalanceOf(t, a.id) < msg.amount then (Failed, Some(InsufficientFunds))
      else (Success, None)
  }

  /** The amount and the payer's balance after the debit fit numeric(18,2). */
  predicate AmountsFit(t: PaymentsTables, msg: OrderPaymentRequested)
  {
    && MoneyFits(msg.amount)
    && (AccountByUserId(t, msg.userId).Some? ==>
          MoneyFits(BalanceOf(t, AccountByUserId(t, msg.userId).value.id) - msg.amount))
  }

  /**
   * The balances and ledger rows of t' are those of t with the request's debit
   * applied when `debit`; otherwise no balance and no ledger row differs.
   */
  ghost predicate LedgerAfter(t: PaymentsTables, msg: OrderPaymentRequested, now: Instant, debit: bool, t': PaymentsTables)
  {
    if debit && AccountByUserId(t, msg.userId).Some? then
      var a := AccountByUserId(t, msg.userId).value.id;
      && a in t'.balances
      && t'.balances == t.balances[a := t'.balances[a]]
      && t'.balances[a].balance == BalanceOf(t, a) - msg.amount
      && AppendedOne(t.transactions, t'.transactions, a, Some(msg.orderId), -msg.amount, now)
    else
      && t'.transactions == t.transactions
      && forall k :: BalanceOf(t', k) == BalanceOf(t, k)
  }

  /** `after` is `before` plus one unpublished outbox row carrying the event. */
  predicate OutboxAppended(before: seq<OutboxMessage>, after: seq<OutboxMessage>, evt: OrderPaymentStatusChanged,
                           now: Instant)
  {
    && |after| == |before| + 1 && after[..|before|] == before
    && after[|before|].msgType == OrderPaymentStatusChangedType
    && after[|before|].payload == PaymentStatusChanged(evt)
    && after[|before|].createdAt == now
    && after[|before|].processedAt.None? && after[|before|].attempt == 0 && after[|before|].error.None?
  }

  /** The inbox record a message not processed yet is worked on with. */
  function InboxFor(s: PaymentsCtx, msg: OrderPaymentRequested, now: Instant): InboxMessage
  {
    match InboxByMessageId(s.committed, msg.messageId)
    case Some(m) => m
    case None => InboxMessage(s.nextId, msg.messageId, OrderPaymentRequestedType, msg, now, None, None, 0)
  }

  /**
   * Receiving a message not processed yet on a store with nothing staged: the
   * stored record is reused, or exactly one new record with the message's Id
   * and type is staged; either way the record is tracked and nothing else is staged.
   */
  lemma ReceiveFacts(s: PaymentsCtx, msg: OrderPaymentRequested, now: Instant)
    requires Wf(s) && Clean(s)
    requires InboxByMessageId(s.committed, msg.messageId).Some? ==>
               InboxByMessageId(s.committed, msg.messageId).value.processedAt.None?
    ensures var existing := InboxByMessageId(s.committed, msg.messageId);
      var (inbox, h, s1) := ReceiveInbox(s, msg, existing, now);
      && LedgerSettled(s1) && s1.committed == s.committed && s1.pending.outbox == s.committed.outbox
      && s1.nextId >= s.nextId && s1.epoch == s.epoch
      && inbox == InboxFor(s, msg, now) && inbox.messageId == msg.messageId && inbox.processedAt.None?
      && h.id == inbox.id && Attached(s1, h) && inbox in s1.pending.inbox
      && |s1.pending.inbox| == |s.committed.inbox| + (if existing.Some? then 0 else 1)
  {
    var existing := InboxByMessageId(s.committed, msg.messageId);
    if existing.None? {
      var m := InboxFor(s, msg, now);
      var p := ReceiveInbox(s, msg, existing, now).2.pending;
      assert p.inbox == s.committed.inbox + [m];
      assert InboxConstraints(p.inbox) by {
        forall i, j | 0 <= i < j < |p.inbox|
          ensures p.inbox[i].id != p.inbox[j].id && p.inbox[i].messageId != p.inbox[j].messageId
        {
          if j == |p.inbox| - 1 {
            assert p.inbox[i] in s.committed.inbox;
          } else {
            assert p.inbox[i] == s.committed.inbox[i] && p.inbox[j] == s.committed.inbox[j];
          }
        }
      }
    }
  }

  /**
   * The decision when no debit is staged: the verdict of the stored tables,
   * with nothing of the ledger staged and no balance or ledger row changed.
   */
  lemma DecideWithoutDebit(s1: PaymentsCtx, msg: OrderPaymentRequested, now: Instant)
    requires LedgerSettled(s1) && !Debits(s1.committed, msg)
    ensures var (v, s2) := Decide(s1, msg, now);
      && v == Ok(Verdict(s1.committed, msg)) && LedgerSettled(s2)
      && s2.epoch == s1.epoch && s2.nextId >= s1.nextId
      && s2.pending.inbox == s1.pending.inbox && s2.pending.outbox == s1.pending.outbox
      && s2.committed.accounts == s1.committed.accounts
      && StampVersions(s2.committed, s2.pending) == s2.pending
      && LedgerAfter(s1.committed, msg, now, Debits(s1.committed, msg), s2.pending)
  {
    var found := AccountByUserId(s1.committed, msg.userId);
    if found.Some? {
      DebitWithoutSaveOutcome(s1, found.value.id, msg.orderId, msg.amount, now);
    }
    var s2 := Decide(s1, msg, now).1;
    StampWithoutUpdate(s2.committed, s2.pending);
  }

  /**
   * A debit of one balance row as the store writes it: a versioned update
   * exactly when the amount is not zero, and the tables' balances with that
   * one row lowered by the amount.
   */
  lemma StampedDebit(t: PaymentsTables, c: PaymentsTables, p: PaymentsTables, a: Guid, amount: Cents)
    requires c.balances == WithBalanceRow(t, a).balances
    requires a in p.balances && p.balances == c.balances[a := p.balances[a]]
    requires a in c.balances && p.balances[a] == c.balances[a].(balance := BalanceOf(t, a) - amount)
    ensures UpdatesVersionedRow(c, p) <==> amount != 0
    ensures var b := StampVersions(c, p).balances;
      a in b && b == t.balances[a := b[a]] && b[a].balance == BalanceOf(t, a) - amount
  {
    var b := StampVersions(c, p).balances;
    assert c.balances[a].balance == BalanceOf(t, a);
    forall k | k in c.balances && k != a ensures !BalanceChanged(c, p, k) {
    }
    if amount != 0 {
      assert BalanceChanged(c, p, a);
    } else {
      assert p.balances == c.balances;
    }
    assert b == t.balances[a := b[a]];
  }

  /**
   * The decision when the debit is staged: Success, with the lowered balance
   * and the order's ledger row in the tracker, acceptable to the store, and a
   * versioned update pending exactly when the amount is not zero.
   */
  lemma DecideWithDebit(s1: PaymentsCtx, msg: OrderPaymentRequested, now: Instant)
    requires LedgerSettled(s1) && Debits(s1.committed, msg) && AmountsFit(s1.committed, msg)
    ensures var (v, s2) := Decide(s1, msg, now);
      && v == Ok(Verdict(s1.committed, msg)) && Wf(s2)
      && s2.epoch == s1.epoch && s2.nextId >= s1.nextId
      && s2.pending.inbox == s1.pending.inbox && s2.pending.outbox == s1.pending.outbox
      && s2.committed.accounts == s1.committed.accounts && s2.pending.accounts == s1.pending.accounts
      && Constraints(StampVersions(s2.committed, s2.pending))
      && (UpdatesVersionedRow(s2.committed, s2.pending) <==> msg.amount != 0)
  {
    var a := AccountByUserId(s1.committed, msg.userId).value.id;
    var oid, amt := msg.orderId, msg.amount;
    DebitWithoutSaveOutcome(s1, a, oid, amt, now);
    DebitWithoutSaveStages(s1, a, oid, amt, now);
    var s2 := DebitWithoutSaveSpec(s1, a, oid, amt, now).1;
    assert Decide(s1, msg, now) == (Ok((Success, None)), s2);
    StampedDebit(s1.committed, s2.committed, s2.pending, a, amt);
  }

  /** The staged debit, as the final save would write it, is the request's ledger effect. */
  lemma DebitLedgerEffect(s1: PaymentsCtx, msg: OrderPaymentRequested, now: Instant)
    requires LedgerSettled(s1) && Debits(s1.committed, msg)
    ensures var s2 := Decide(s1, msg, now).1;
      LedgerAfter(s1.committed, msg, now, true, StampVersions(s2.committed, s2.pending))
  {
    var a := AccountByUserId(s1.committed, msg.userId).value.id;
    var oid, amt := msg.orderId, msg.amount;
    DebitWithoutSaveOutcome(s1, a, oid, amt, now);
    DebitWithoutSaveStages(s1, a, oid, amt, now);
    var s2 := DebitWithoutSaveSpec(s1, a, oid, amt, now).1;
    assert Decide(s1, msg, now).1 == s2;
    StampedDebit(s1.committed, s2.committed, s2.pending, a, amt);
  }

  /** Marking an inbox record processed keeps every record's Id and MessageId, so the keys stay unique. */
  lemma MarkedInboxFits(rows: seq<InboxMessage>, m: InboxMessage, now: Instant)
    requires InboxConstraints(rows) && m in rows
    ensures InboxConstraints(UpdateInboxRow(rows, m.(processedAt := Some(now))))
  {
    var r := UpdateInboxRow(rows, m.(processedAt := Some(now)));
    forall i | 0 <= i < |rows| ensures r[i].id == rows[i].id && r[i].messageId == rows[i].messageId {
      if rows[i].id == m.id {
        var j :| 0 <= j < |rows| && rows[j] == m;
        assert !(i < j) && !(j < i);
      }
    }
  }

  /** Marking a tracked inbox record processed leaves the marked record in the table. */
  lemma MarkedInboxIsKept(rows: seq<InboxMessage>, m: InboxMessage, now: Instant)
    requires m in rows
    ensures m.(processedAt := Some(now)) in UpdateInboxRow(rows, m.(processedAt := Some(now)))
  {
    var i :| 0 <= i < |rows| && rows[i] == m;
    assert UpdateInboxRow(rows, m.(processedAt := Some(now)))[i] == m.(processedAt := Some(now));
  }

  /**
   * The tables the final save writes: the staged ones plus a new outbox row
   * and the inbox record marked processed. They are acceptable to the store
   * when the staged ones are and the row's Id is fresh, and they update a
   * versioned row exactly when the staged ones do.
   */
  lemma RecordedTablesFit(c: PaymentsTables, p: PaymentsTables, row: OutboxMessage, inbox: InboxMessage, now: Instant)
    requires Constraints(StampVersions(c, p)) && inbox in p.inbox
    requires forall m | m in p.outbox :: m.id < row.id
    ensures var p3 := p.(outbox := p.outbox + [row], inbox := UpdateInboxRow(p.inbox, inbox.(processedAt := Some(now))));
      && Constraints(StampVersions(c, p3))
      && (UpdatesVersionedRow(c, p3) <==> UpdatesVersionedRow(c, p))
      && StampVersions(c, p3) == StampVersions(c, p).(outbox := p3.outbox, inbox := p3.inbox)
  {
    var p3 := p.(outbox := p.outbox + [row], inbox := UpdateInboxRow(p.inbox, inbox.(processedAt := Some(now))));
    assert StampVersions(c, p3) == StampVersions(c, p).(outbox := p3.outbox, inbox := p3.inbox);
    MarkedInboxFits(p.inbox, inbox, now);
    assert OutboxStore.OutboxKeys(p3.outbox) by {
      assert row.id !in set m | m in p.outbox :: m.id;
    }
  }

  /**
   * The end of the step on a tracker whose staged tables the store accepts:
   * it throws exactly when the oracle says the save conflicts and a balance
   * row is being updated, and then the transaction is rolled back and the
   * tracker cleared; otherwise the event, a new outbox row carrying it and the
   * marked inbox record are committed together with everything staged before.
   */
  lemma RecordFacts(s2: PaymentsCtx, msg: OrderPaymentRequested, status: PaymentStatus, reason: Option<string>,
                    inbox: InboxMessage, h: Handle, conflict: bool, now: Instant, snapshot: PaymentsTables)
    requires Wf(s2) && Constraints(StampVersions(s2.committed, s2.pending))
    requires Constraints(snapshot) && FreshFrom(snapshot, s2.nextId)
    requires Attached(s2, h) && h.id == inbox.id && inbox in s2.pending.inbox
    ensures var (r, s') := Record(s2, msg, status, reason, inbox, h, conflict, now, snapshot);
      var t := StampVersions(s2.committed, s2.pending);
      && Wf(s') && Clean(s')
      && (r.Threw? <==> conflict && UpdatesVersionedRow(s2.committed, s2.pending))
      && (r.Threw? ==> r == Threw(ConcurrencyConflict) && s'.committed == snapshot)
      && (r.Ok? ==>
            && r.value == Recorded(OrderPaymentStatusChanged(s2.nextId, msg.orderId, msg.userId, status, reason, now))
            && s'.committed.accounts == t.accounts && s'.committed.balances == t.balances
            && s'.committed.transactions == t.transactions
            && OutboxAppended(s2.pending.outbox, s'.committed.outbox, r.value.change, now)
            && inbox.(processedAt := Some(now)) in s'.committed.inbox)
  {
    var (eventId, s2a) := NewId(s2);
    var evt := OrderPaymentStatusChanged(eventId, msg.orderId, msg.userId, status, reason, now);
    var (rowId, s2b) := NewId(s2a);
    var row := OutboxMessage(rowId, OrderPaymentStatusChangedType, PaymentStatusChanged(evt), now, None, 0, None);
    var s3 := SetInboxProcessed(StageOutbox(s2b, row), h, inbox, now);
    var p := s2.pending;
    assert s3.pending == p.(outbox := p.outbox + [row], inbox := UpdateInboxRow(p.inbox, inbox.(processedAt := Some(now))));
    RecordedTablesFit(s2.committed, p, row, inbox, now);
    MarkedInboxIsKept(p.inbox, inbox, now);
    assert s3.pending.outbox[..|p.outbox|] == p.outbox;
    var saved := Save(s3, conflict);
    assert Wf(s3);
  }

  /** LedgerAfter looks at the balances and ledger rows only. */
  lemma LedgerAfterReadsLedgerOnly(t: PaymentsTables, msg: OrderPaymentRequested, now: Instant, debit: bool,
                                   t1: PaymentsTables, t2: PaymentsTables)
    requires LedgerAfter(t, msg, now, debit, t1)
    requires t2.balances == t1.balances && t2.transactions == t1.transactions
    ensures LedgerAfter(t, msg, now, debit, t2)
  {
    if !(debit && AccountByUserId(t, msg.userId).Some?) {
      forall k ensures BalanceOf(t2, k) == BalanceOf(t, k) {
        assert BalanceOf(t2, k) == BalanceOf(t1, k);
      }
    }
  }

  /**
   * Everything before the final save, for a message not processed yet: the
   * verdict of the stored tables, the inbox record tracked, and staged tables
   * the store accepts that hold the request's ledger effect and update a
   * versioned row exactly for a non-zero debit.
   */
  lemma ReceiveAndDecide(s: PaymentsCtx, msg: OrderPaymentRequested, now: Instant)
    requires Wf(s) && Clean(s) && AmountsFit(s.committed, msg)
    requires InboxByMessageId(s.committed, msg.messageId).Some? ==>
               InboxByMessageId(s.committed, msg.messageId).value.processedAt.None?
    ensures var (inbox, h, s1) := ReceiveInbox(s, msg, InboxByMessageId(s.committed, msg.messageId), now);
      var (v, s2) := Decide(s1, msg, now);
      var t := StampVersions(s2.committed, s2.pending);
      && v == Ok(Verdict(s.committed, msg))
      && Wf(s2) && Constraints(t) && FreshFrom(s.committed, s2.nextId)
      && Attached(s2, h) && h.id == inbox.id && inbox in s2.pending.inbox && inbox == InboxFor(s, msg, now)
      && s2.pending.outbox == s.committed.outbox && t.accounts == s.committed.accounts
      && (UpdatesVersionedRow(s2.committed, s2.pending) <==> Debits(s.committed, msg) && msg.amount != 0)
      && LedgerAfter(s.committed, msg, now, Debits(s.committed, msg), t)
  {
    var existing := InboxByMessageId(s.committed, msg.messageId);
    ReceiveFacts(s, msg, now);
    var s1 := ReceiveInbox(s, msg, existing, now).2;
    var s2 := Decide(s1, msg, now).1;
    if Debits(s.committed, msg) {
      DecideWithDebit(s1, msg, now);
      DebitLedgerEffect(s1, msg, now);
    } else {
      DecideWithoutDebit(s1, msg, now);
      assert s2.pending.balances == s2.committed.balances;
    }
  }

  /**
   * ProcessAsync for a message not processed yet, on a store with nothing
   * staged and amounts that fit the money columns. It throws exactly when the
   * final save conflicts while a non-zero debit is pending, and then the
   * database is as before and the tracker is cleared. Otherwise one commit
   * records everything together: the event for the order, user and time with
   * the status and reason the stored tables call for, a new unpublished outbox
   * row carrying it, the inbox record marked processed, and the debit exactly
   * when the tables call for one; the accounts do not change.
   */
  lemma ProcessOutcome(s: PaymentsCtx, msg: OrderPaymentRequested, conflict: bool, now: Instant)
    requires Wf(s) && Clean(s) && AmountsFit(s.committed, msg)
    requires InboxByMessageId(s.committed, msg.messageId).Some? ==>
               InboxByMessageId(s.committed, msg.messageId).value.processedAt.None?
    ensures var (r, s') := ProcessSpec(s, msg, conflict, now);
      && Wf(s') && Clean(s')
      && (r.Threw? <==> conflict && Debits(s.committed, msg) && msg.amount != 0)
      && (r.Threw? ==> r == Threw(ConcurrencyConflict) && s'.committed == s.committed)
      && (r.Ok? ==>
            && r.value.Recorded?
            && r.value.change.orderId == msg.orderId && r.value.change.userId == msg.userId
            && r.value.change.occurredAt == now
            && (r.value.change.status, r.value.change.reason) == Verdict(s.committed, msg)
            && s'.committed.accounts == s.committed.accounts
            && OutboxAppended(s.committed.outbox, s'.committed.outbox, r.value.change, now)
            && InboxByMessageId(s'.committed, msg.messageId) == Some(InboxFor(s, msg, now).(processedAt := Some(now)))
            && LedgerAfter(s.committed, msg, now, Debits(s.committed, msg), s'.committed))
  {
    ReceiveAndDecide(s, msg, now);
    var rcv := ReceiveInbox(s, msg, InboxByMessageId(s.committed, msg.messageId), now);
    var inbox, h := rcv.0, rcv.1;
    var dec := Decide(rcv.2, msg, now);
    var s2 := dec.1;
    var status, reason := dec.0.value.0, dec.0.value.1;
    RecordFacts(s2, msg, status, reason, inbox, h, conflict, now, s.committed);
    var rec := Record(s2, msg, status, reason, inbox, h, conflict, now, s.committed);
    assert ProcessSpec(s, msg, conflict, now) == rec;
    if rec.0.Ok? {
      InboxByMessageIdIsUnambiguous(rec.1.committed, inbox.(processedAt := Some(now)));
      LedgerAfterReadsLedgerOnly(s.committed, msg, now, Debits(s.committed, msg), StampVersions(s2.committed, s2.pending), rec.1.committed);
    }
  }

  /** A message whose inbox record is processed is recognised: the call reports it and changes nothing. */
  lemma ProcessedMessageIsSkipped(s: PaymentsCtx, msg: OrderPaymentRequested, conflict: bool, now: Instant)
    requires NoVersionedUpdate(s)
    ensures var existing := InboxByMessageId(s.committed, msg.messageId);
      ProcessSpec(s, msg, conflict, now).0 == Ok(AlreadyProcessed) <==>
        existing.Some? && existing.value.processedAt.Some?
    ensures ProcessSpec(s, msg, conflict, now).0 == Ok(AlreadyProcessed) ==> ProcessSpec(s, msg, conflict, now).1 == s
  {
    var existing := InboxByMessageId(s.committed, msg.messageId);
    if !(existing.Some? && existing.value.processedAt.Some?) {
      var rcv := ReceiveInbox(s, msg, existing, now);
      var dec := Decide(rcv.2, msg, now);
      if dec.0.Ok? {
        var rec := Record(dec.1, msg, dec.0.value.0, dec.0.value.1, rcv.0, rcv.1, conflict, now, s.committed);
        assert rec.0.Ok? ==> rec.0.value.Recorded?;
      }
    }
  }

  /**
   * At-most-once processing: after a call that did not throw, a redelivery of
   * the same message on the state that call left, at any later time and with
   * any conflict flag, is skipped and leaves everything as it is.
   */
  lemma RedeliveryIsSkipped(s: PaymentsCtx, msg: OrderPaymentRequested, conflict: bool, now: Instant,
                            conflict2: bool, later: Instant)
    requires Wf(s) && Clean(s) && AmountsFit(s.committed, msg)
    requires ProcessSpec(s, msg, conflict, now).0.Ok?
    ensures var s' := ProcessSpec(s, msg, conflict, now).1;
      NoVersionedUpdate(s') && ProcessSpec(s', msg, conflict2, later) == (Ok(AlreadyProcessed), s')
  {
    var existing := InboxByMessageId(s.committed, msg.messageId);
    if !(existing.Some? && existing.value.processedAt.Some?) {
      ProcessOutcome(s, msg, conflict, now);
    }
    var s' := ProcessSpec(s, msg, conflict, now).1;
    assert NoVersionedUpdate(s') by {
      assert Clean(s');
    }
    ProcessedMessageIsSkipped(s', msg, conflict2, later);
  }
}

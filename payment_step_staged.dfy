/**
 * PaymentProcessor.ProcessAsync of the earlier Payments service, which saves
 * step by step on one PaymentsDbContext: the new inbox record is saved at
 * once, TryDebitAsync saves (and on a version conflict clears the tracker and
 * retries), PublishResult saves the event's outbox row, and MarkInboxProcessed
 * sets ProcessedAtUtc on the inbox entity it received at the start and saves.
 *
 * Only the debit updates a row with a row version, and it runs with its own
 * conflict oracle; every other save here inserts rows or edits inbox rows, so
 * it cannot meet a version conflict and is modelled with `false`.
 */
module PaymentStepStaged {
  import opened Entities
  import opened PaymentsSchema
  import opened PaymentsData
  import opened PaymentsRepositories
  import opened Ledger
  import opened PaymentStep

  /**
   * The inbox record of a message not processed yet, with the handle the code
   * keeps on it: the stored one as the query returned it, or a new record
   * added and saved at once.
   */
  function Intake(s: PaymentsCtx, msg: OrderPaymentRequested, existing: Option<InboxMessage>, now: Instant)
    : (r: (Outcome<(InboxMessage, Handle)>, PaymentsCtx))
    ensures NoVersionedUpdate(s) ==> NoVersionedUpdate(r.1)
  {
    match existing
    case Some(m) => (Ok((m, Track(s, m.id))), s)
    case None =>
      var (id, s1) := NewId(s);
      var m := InboxMessage(id, msg.messageId, OrderPaymentRequestedType, msg, now, None, None, 0);
      var (res, s2) := Save(StageInbox(s1, m), false);
      if res == Saved then (Ok((m, Track(s1, id))), s2) else (Threw(StoreRejected), s2)
  }

  /** The status and reason that the account lookup and TryDebitAsync settle on. */
  function Settle(s: PaymentsCtx, msg: OrderPaymentRequested, conflicts: seq<bool>, now: Instant)
    : (Outcome<(PaymentStatus, Option<string>)>, PaymentsCtx)
    requires NoVersionedUpdate(s)
  {
    match AccountByUserId(s.committed, msg.userId)
    case None => (Ok((Failed, Some(AccountNotFound))), s)
    case Some(account) =>
      var (d, s1) := TryDebitSpec(s, account.id, msg.orderId, msg.amount, conflicts, now);
      if d.Threw? then (Threw(d.fault), s1) else (Ok(ReportedStatus(d.value)), s1)
  }

  /** PublishResult: the OrderPaymentStatusChanged event in a new outbox row, saved. */
  function PublishResult(s: PaymentsCtx, msg: OrderPaymentRequested, status: PaymentStatus, reason: Option<string>,
                         now: Instant): (Outcome<OrderPaymentStatusChanged>, PaymentsCtx)
  {
    var (eventId, s1) := NewId(s);
    var evt := OrderPaymentStatusChanged(eventId, msg.orderId, msg.userId, status, reason, now);
    var (rowId, s2) := NewId(s1);
    var row := OutboxMessage(rowId, OrderPaymentStatusChangedType, PaymentStatusChanged(evt), now, None, 0, None);
    var (res, s3) := Save(StageOutbox(s2, row), false);
    if res == Saved then (Ok(evt), s3) else (Threw(StoreRejected), s3)
  }

  /** MarkInboxProcessed: ProcessedAtUtc set on the entity behind h, then a save. */
  function MarkInboxProcessed(s: PaymentsCtx, h: Handle, inbox: InboxMessage, evt: OrderPaymentStatusChanged,
                              now: Instant): (Outcome<StepOutcome>, PaymentsCtx)
  {
    var (res, s1) := Save(SetInboxProcessed(s, h, inbox, now), false);
    if res == Saved then (Ok(Recorded(evt)), s1) else (Threw(StoreRejected), s1)
  }

  /** Everything up to the marking of the inbox record: intake, settling and publishing. */
  function Publish(s: PaymentsCtx, msg: OrderPaymentRequested, existing: Option<InboxMessage>, conflicts: seq<bool>,
                   now: Instant): (Outcome<(InboxMessage, Handle, OrderPaymentStatusChanged)>, PaymentsCtx)
    requires NoVersionedUpdate(s)
  {
    var (i, s1) := Intake(s, msg, existing, now);
    if i.Threw? then (Threw(i.fault), s1)
    else
      var (v, s2) := Settle(s1, msg, conflicts, now);
      if v.Threw? then (Threw(v.fault), s2)
      else
        var (e, s3) := PublishResult(s2, msg, v.value.0, v.value.1, now);
        if e.Threw? then (Threw(e.fault), s3) else (Ok((i.value.0, i.value.1, e.value)), s3)
  }

  /**
   * ProcessAsync as written: the inbox record is marked through the entity
   * received at the start, which a conflict inside TryDebitAsync has detached.
   */
  function ProcessAsWrittenSpec(s: PaymentsCtx, msg: OrderPaymentRequested, conflicts: seq<bool>, now: Instant)
    : (Outcome<StepOutcome>, PaymentsCtx)
    requires NoVersionedUpdate(s)
  {
    var existing := InboxByMessageId(s.committed, msg.messageId);
    if existing.Some? && existing.value.processedAt.Some? then (Ok(AlreadyProcessed), s)
    else
      var (p, s3) := Publish(s, msg, existing, conflicts, now);
      if p.Threw? then (Threw(p.fault), s3)
      else MarkInboxProcessed(s3, p.value.1, p.value.0, p.value.2, now)
  }

  /**
   * ProcessAsync with the inbox record attached to the current tracker before
   * it is marked, so the mark reaches the database whatever TryDebitAsync did.
   */
  function ProcessReattachedSpec(s: PaymentsCtx, msg: OrderPaymentRequested, conflicts: seq<bool>, now: Instant)
    : (Outcome<StepOutcome>, PaymentsCtx)
    requires NoVersionedUpdate(s)
  {
    var existing := InboxByMessageId(s.committed, msg.messageId);
    if existing.Some? && existing.value.processedAt.Some? then (Ok(AlreadyProcessed), s)
    else
      var (p, s3) := Publish(s, msg, existing, conflicts, now);
      if p.Threw? then (Threw(p.fault), s3)
      else MarkInboxProcessed(s3, Track(s3, p.value.0.id), p.value.0, p.value.2, now)
  }

  method IntakeOnce(db: PaymentsDb, msg: OrderPaymentRequested, existing: Option<InboxMessage>, now: Instant)
    returns (r: Outcome<(InboxMessage, Handle)>)
    modifies db
    ensures (r, db.State()) == Intake(old(db.State()), msg, existing, now)
  {
    if existing.Some? {
      return Ok((existing.value, Track(db.State(), existing.value.id)));
    }
    var id := db.NewGuid();
    var m := InboxMessage(id, msg.messageId, OrderPaymentRequestedType, msg, now, None, None, 0);
    var h := db.AddInbox(m);
    var res := db.SaveChanges(false);
    r := if res == Saved then Ok((m, h)) else Threw(StoreRejected);
  }

  method SettleOnce(db: PaymentsDb, msg: OrderPaymentRequested, conflicts: seq<bool>, now: Instant)
    returns (r: Outcome<(PaymentStatus, Option<string>)>)
    requires NoVersionedUpdate(db.State())
    modifies db
    ensures (r, db.State()) == Settle(old(db.State()), msg, conflicts, now)
  {
    var account := AccountByUserId(db.committed, msg.userId);
    if account.None? {
      return Ok((Failed, Some(AccountNotFound)));
    }
    var d := TryDebit(db, account.value.id, msg.orderId, msg.amount, conflicts, now);
    r := if d.Threw? then Threw(d.fault) else Ok(ReportedStatus(d.value));
  }

  method PublishOnce(db: PaymentsDb, msg: OrderPaymentRequested, status: PaymentStatus, reason: Option<string>,
                     now: Instant) returns (r: Outcome<OrderPaymentStatusChanged>)
    modifies db
    ensures (r, db.State()) == PublishResult(old(db.State()), msg, status, reason, now)
  {
    var eventId := db.NewGuid();
    var evt := OrderPaymentStatusChanged(eventId, msg.orderId, msg.userId, status, reason, now);
    var rowId := db.NewGuid();
    db.AddOutbox(OutboxMessage(rowId, OrderPaymentStatusChangedType, PaymentStatusChanged(evt), now, None, 0, None));
    var res := db.SaveChanges(false);
    r := if res == Saved then Ok(evt) else Threw(StoreRejected);
  }

  method MarkOnce(db: PaymentsDb, h: Handle, inbox: InboxMessage, evt: OrderPaymentStatusChanged, now: Instant)
    returns (r: Outcome<StepOutcome>)
    modifies db
    ensures (r, db.State()) == MarkInboxProcessed(old(db.State()), h, inbox, evt, now)
  {
    db.MarkInboxProcessed(h, inbox, now);
    var res := db.SaveChanges(false);
    r := if res == Saved then Ok(Recorded(evt)) else Threw(StoreRejected);
  }

  method PublishSteps(db: PaymentsDb, msg: OrderPaymentRequested, existing: Option<InboxMessage>,
                      conflicts: seq<bool>, now: Instant)
    returns (r: Outcome<(InboxMessage, Handle, OrderPaymentStatusChanged)>)
    requires NoVersionedUpdate(db.State())
    modifies db
    ensures (r, db.State()) == Publish(old(db.State()), msg, existing, conflicts, now)
  {
    var i := IntakeOnce(db, msg, existing, now);
    if i.Threw? {
      return Threw(i.fault);
    }
    var v := SettleOnce(db, msg, conflicts, now);
    if v.Threw? {
      return Threw(v.fault);
    }
    var e := PublishOnce(db, msg, v.value.0, v.value.1, now);
    r := if e.Threw? then Threw(e.fault) else Ok((i.value.0, i.value.1, e.value));
  }

  method ProcessAsWritten(db: PaymentsDb, msg: OrderPaymentRequested, conflicts: seq<bool>, now: Instant)
    returns (r: Outcome<StepOutcome>)
    requires NoVersionedUpdate(db.State())
    modifies db
    ensures (r, db.State()) == ProcessAsWrittenSpec(old(db.State()), msg, conflicts, now)
  {
    var existing := InboxByMessageId(db.committed, msg.messageId);
    if existing.Some? && existing.value.processedAt.Some? {
      return Ok(AlreadyProcessed);
    }
    var p := PublishSteps(db, msg, existing, conflicts, now);
    if p.Threw? {
      return Threw(p.fault);
    }
    r := MarkOnce(db, p.value.1, p.value.0, p.value.2, now);
  }

  method ProcessReattached(db: PaymentsDb, msg: OrderPaymentRequested, conflicts: seq<bool>, now: Instant)
    returns (r: Outcome<StepOutcome>)
    requires NoVersionedUpdate(db.State())
    modifies db
    ensures (r, db.State()) == ProcessReattachedSpec(old(db.State()), msg, conflicts, now)
  {
    var existing := InboxByMessageId(db.committed, msg.messageId);
    if existing.Some? && existing.value.processedAt.Some? {
      return Ok(AlreadyProcessed);
    }
    var p := PublishSteps(db, msg, existing, conflicts, now);
    if p.Threw? {
      return Threw(p.fault);
    }
    var h := Track(db.State(), p.value.0.id);
    r := MarkOnce(db, h, p.value.0, p.value.2, now);
  }
}

/** What the step-by-step payment step promises, as written and with the inbox record re-attached. */
module PaymentStepStagedFacts {
  import opened Entities
  import opened PaymentsSchema
  import opened PaymentsData
  import opened PaymentsRepositories
  import opened Ledger
  import opened LedgerFacts
  import opened PaymentStep
  import opened PaymentStepFacts
  import opened PaymentStepStaged

  /** A debit attempt that ends the loop keeps the tracker; one that conflicts clears it once. */
  lemma DebitAttemptEpoch(s: PaymentsCtx, accountId: Guid, orderId: Guid, amount: Cents, conflict: bool, now: Instant)
    requires NoVersionedUpdate(s)
    ensures var a := TryDebitAttempt(s, accountId, orderId, amount, conflict, now);
      && (a.Done? ==> a.state.epoch == s.epoch)
      && (a.Retry? ==> a.state.epoch == s.epoch + 1)
  {
    if TransactionForOrder(s.committed, orderId).None? {
      var gs := GetBalanceSpec(s, accountId);
      if gs.0.Ok? && gs.0.value.balance >= amount {
        var w := StageLedgerWrite(gs.1, gs.0.value, accountId, Some(orderId), -amount, now);
        assert Save(w, conflict).1.epoch == s.epoch;
      }
    }
  }

  /**
   * TryDebitAsync from attempt `attempt` on never goes back to an earlier
   * tracker, and keeps the tracker when that attempt ends the loop.
   */
  lemma {:induction false} TryDebitFromEpoch(s: PaymentsCtx, accountId: Guid, orderId: Guid, amount: Cents,
                                             conflicts: seq<bool>, now: Instant, attempt: nat)
    requires NoVersionedUpdate(s)
    decreases MaxRetry - attempt
    ensures TryDebitFrom(s, accountId, orderId, amount, conflicts, now, attempt).1.epoch >= s.epoch
    ensures attempt < MaxRetry && TryDebitAttempt(s, accountId, orderId, amount, ConflictAt(conflicts, attempt), now).Done?
            ==> TryDebitFrom(s, accountId, orderId, amount, conflicts, now, attempt).1.epoch == s.epoch
    ensures attempt < MaxRetry && TryDebitAttempt(s, accountId, orderId, amount, ConflictAt(conflicts, attempt), now).Retry?
            ==> TryDebitFrom(s, accountId, orderId, amount, conflicts, now, attempt).1.epoch > s.epoch
  {
    if attempt < MaxRetry {
      DebitAttemptEpoch(s, accountId, orderId, amount, ConflictAt(conflicts, attempt), now);
      match TryDebitAttempt(s, accountId, orderId, amount, ConflictAt(conflicts, attempt), now)
      case Done(_, _) =>
      case Retry(s') =>
        TryDebitFromEpoch(s', accountId, orderId, amount, conflicts, now, attempt + 1);
    }
  }

  /** The debit stages a versioned update and its first save meets a concurrent writer. */
  predicate FirstDebitConflicts(t: PaymentsTables, msg: OrderPaymentRequested, conflicts: seq<bool>)
  {
    Debits(t, msg) && msg.amount != 0 && ConflictAt(conflicts, 0)
  }

  /** Every save of the debit meets a concurrent writer, so TryDebitAsync gives up. */
  predicate DebitExhaustedFor(t: PaymentsTables, msg: OrderPaymentRequested, conflicts: seq<bool>)
  {
    FirstDebitConflicts(t, msg, conflicts) && ConflictAt(conflicts, 1) && ConflictAt(conflicts, 2)
  }

  /** The status and reason the step-by-step variant reports: the stored tables' verdict unless the retries run out. */
  function StagedVerdict(t: PaymentsTables, msg: OrderPaymentRequested, conflicts: seq<bool>): (PaymentStatus, Option<string>)
  {
    if DebitExhaustedFor(t, msg, conflicts) then (Failed, Some(DebitExhausted)) else Verdict(t, msg)
  }

  /** TryDebitAsync clears the tracker, detaching every entity, exactly when its first save conflicts. */
  lemma SettleEpoch(s1: PaymentsCtx, msg: OrderPaymentRequested, conflicts: seq<bool>, now: Instant)
    requires Wf(s1) && Clean(s1) && AmountsFit(s1.committed, msg)
    ensures Settle(s1, msg, conflicts, now).1.epoch == s1.epoch <==> !FirstDebitConflicts(s1.committed, msg, conflicts)
  {
    var found := AccountByUserId(s1.committed, msg.userId);
    if found.Some? {
      var a, oid, amt := found.value.id, msg.orderId, msg.amount;
      if FirstDebitConflicts(s1.committed, msg, conflicts) {
        DebitAttemptConflicts(s1, a, oid, amt, conflicts, now, 0);
        var s' := TryDebitAttempt(s1, a, oid, amt, ConflictAt(conflicts, 0), now).state;
        DebitAttemptEpoch(s1, a, oid, amt, ConflictAt(conflicts, 0), now);
        TryDebitFromEpoch(s', a, oid, amt, conflicts, now, 1);
      } else {
        if TransactionForOrder(s1.committed, oid).None? {
          if BalanceOf(s1.committed, a) >= amt {
            DebitAttemptCommits(s1, a, oid, amt, conflicts, now, 0);
          } else {
            GetBalanceOnCleanStore(s1, a);
          }
        }
        TryDebitFromEpoch(s1, a, oid, amt, conflicts, now, 0);
      }
    }
  }

  /**
   * The account lookup and TryDebitAsync on a store with nothing staged: the
   * status and reason of StagedVerdict, with everything saved and no table
   * but the balances and the ledger touched.
   */
  lemma SettleFacts(s1: PaymentsCtx, msg: OrderPaymentRequested, conflicts: seq<bool>, now: Instant)
    requires Wf(s1) && Clean(s1) && AmountsFit(s1.committed, msg)
    ensures var (v, s2) := Settle(s1, msg, conflicts, now);
      && v == Ok(StagedVerdict(s1.committed, msg, conflicts))
      && Wf(s2) && Clean(s2) && OtherTablesKept(s1.committed, s2.committed)
  {
    var found := AccountByUserId(s1.committed, msg.userId);
    if found.Some? {
      var a, oid, amt := found.value.id, msg.orderId, msg.amount;
      TryDebitOutcome(s1, a, oid, amt, conflicts, now);
      var d := TryDebitSpec(s1, a, oid, amt, conflicts, now);
      assert Settle(s1, msg, conflicts, now) == (Ok(ReportedStatus(d.0.value)), d.1);
    }
  }

  /** The ledger effect of the account lookup and TryDebitAsync: the debit exactly when it succeeds. */
  lemma SettleLedger(s1: PaymentsCtx, msg: OrderPaymentRequested, conflicts: seq<bool>, now: Instant)
    requires Wf(s1) && Clean(s1) && AmountsFit(s1.committed, msg)
    ensures LedgerAfter(s1.committed, msg, now,
                        Debits(s1.committed, msg) && !DebitExhaustedFor(s1.committed, msg, conflicts),
                        Settle(s1, msg, conflicts, now).1.committed)
  {
    var found := AccountByUserId(s1.committed, msg.userId);
    if found.Some? {
      var a, oid, amt := found.value.id, msg.orderId, msg.amount;
      TryDebitOutcome(s1, a, oid, amt, conflicts, now);
      var d := TryDebitSpec(s1, a, oid, amt, conflicts, now);
      assert Settle(s1, msg, conflicts, now).1 == d.1;
      PromisedLedger(s1, msg, conflicts, now, d.0, d.1);
    }
  }

  /** What TryDebitAsync promises for the payer's account, read as the ledger effect of the request. */
  lemma PromisedLedger(s1: PaymentsCtx, msg: OrderPaymentRequested, conflicts: seq<bool>, now: Instant,
                       r: Outcome<DebitResult>, s': PaymentsCtx)
    requires AccountByUserId(s1.committed, msg.userId).Some?
    requires AllConflict(conflicts, 0) <==> ConflictAt(conflicts, 0) && ConflictAt(conflicts, 1) && ConflictAt(conflicts, 2)
    requires DebitPromise(s1, AccountByUserId(s1.committed, msg.userId).value.id, msg.orderId, msg.amount,
                          conflicts, now, 0, r, s')
    ensures LedgerAfter(s1.committed, msg, now,
                        Debits(s1.committed, msg) && !DebitExhaustedFor(s1.committed, msg, conflicts), s'.committed)
  {
    var a := AccountByUserId(s1.committed, msg.userId).value.id;
    if !(Debits(s1.committed, msg) && !DebitExhaustedFor(s1.committed, msg, conflicts)) {
      assert s'.committed == s1.committed || s'.committed == WithBalanceRow(s1.committed, a);
      BalanceRowKeepsBalances(s1.committed, a);
    }
  }

  /** Creating a zero balance row changes no balance and no ledger row. */
  lemma BalanceRowKeepsBalances(t: PaymentsTables, a: Guid)
    ensures WithBalanceRow(t, a).transactions == t.transactions
    ensures forall k :: BalanceOf(WithBalanceRow(t, a), k) == BalanceOf(t, k)
  {
    forall k ensures BalanceOf(WithBalanceRow(t, a), k) == BalanceOf(t, k) {
      if k == a && a !in t.balances {
        assert WithBalanceRow(t, a).balances[a].balance == 0;
      }
    }
  }

  /**
   * Receiving a message not processed yet on a store with nothing staged: the
   * stored record, or a new one saved at once, is found by the lookup, is not
   * processed, and is the entity the handle refers to.
   */
  lemma IntakeFacts(s: PaymentsCtx, msg: OrderPaymentRequested, now: Instant)
    requires Wf(s) && Clean(s)
    requires InboxByMessageId(s.committed, msg.messageId).Some? ==>
               InboxByMessageId(s.committed, msg.messageId).value.processedAt.None?
    ensures var (i, s1) := Intake(s, msg, InboxByMessageId(s.committed, msg.messageId), now);
      && i.Ok? && i.value.0 == InboxFor(s, msg, now) && i.value.0.processedAt.None?
      && i.value.1.id == i.value.0.id && Attached(s1, i.value.1) && s1.epoch == s.epoch
      && Wf(s1) && Clean(s1) && i.value.0 in s1.committed.inbox
      && InboxByMessageId(s1.committed, msg.messageId) == Some(i.value.0)
      && s1.committed.accounts == s.committed.accounts && s1.committed.balances == s.committed.balances
      && s1.committed.transactions == s.committed.transactions && s1.committed.outbox == s.committed.outbox
  {
    var existing := InboxByMessageId(s.committed, msg.messageId);
    if existing.None? {
      var (id, s1) := NewId(s);
      var m := InboxMessage(id, msg.messageId, OrderPaymentRequestedType, msg, now, None, None, 0);
      StagedInboxIsFoundOnlyAfterSave(s1, m, false);
    }
  }

  /** PublishResult on a store with nothing staged: one new unpublished outbox row carrying the event is saved. */
  lemma PublishFacts(s: PaymentsCtx, msg: OrderPaymentRequested, status: PaymentStatus, reason: Option<string>,
                     now: Instant)
    requires Wf(s) && Clean(s)
    ensures var (e, s') := PublishResult(s, msg, status, reason, now);
      && e == Ok(OrderPaymentStatusChanged(s.nextId, msg.orderId, msg.userId, status, reason, now))
      && Wf(s') && Clean(s') && s'.epoch == s.epoch
      && OutboxAppended(s.committed.outbox, s'.committed.outbox, e.value, now)
      && s'.committed == s.committed.(outbox := s'.committed.outbox)
  {
    var (eventId, s1) := NewId(s);
    var evt := OrderPaymentStatusChanged(eventId, msg.orderId, msg.userId, status, reason, now);
    var (rowId, s2) := NewId(s1);
    var row := OutboxMessage(rowId, OrderPaymentStatusChangedType, PaymentStatusChanged(evt), now, None, 0, None);
    var p := StageOutbox(s2, row).pending;
    assert OutboxStore.OutboxKeys(p.outbox) by {
      assert row.id !in set m | m in s.committed.outbox :: m.id;
    }
    CommitWithoutUpdateWritesStaged(s.committed, p, false);
    assert p.outbox[..|s.committed.outbox|] == s.committed.outbox;
  }

  /**
   * MarkInboxProcessed on a store with nothing staged: the record is saved as
   * processed when the handle is still attached, and nothing changes when the
   * tracker was cleared since; the save succeeds either way.
   */
  lemma MarkFacts(s: PaymentsCtx, h: Handle, inbox: InboxMessage, evt: OrderPaymentStatusChanged, now: Instant)
    requires Wf(s) && Clean(s) && inbox in s.committed.inbox
    ensures var (r, s') := MarkInboxProcessed(s, h, inbox, evt, now);
      && r == Ok(Recorded(evt)) && Wf(s') && Clean(s')
      && s'.committed == if Attached(s, h)
                         then s.committed.(inbox := UpdateInboxRow(s.committed.inbox, inbox.(processedAt := Some(now))))
                         else s.committed
  {
    var p := SetInboxProcessed(s, h, inbox, now).pending;
    if Attached(s, h) {
      MarkedInboxFits(s.committed.inbox, inbox, now);
    }
    CommitWithoutUpdateWritesStaged(s.committed, p, false);
  }

  /** Tables that agree on accounts, balances and ledger rows call for the same verdict and ledger effect. */
  lemma SameLedgerSameVerdict(t1: PaymentsTables, t2: PaymentsTables, msg: OrderPaymentRequested, conflicts: seq<bool>,
                              now: Instant, debit: bool, t': PaymentsTables)
    requires t1.accounts == t2.accounts && t1.balances == t2.balances && t1.transactions == t2.transactions
    ensures AmountsFit(t1, msg) == AmountsFit(t2, msg) && Debits(t1, msg) == Debits(t2, msg)
    ensures StagedVerdict(t1, msg, conflicts) == StagedVerdict(t2, msg, conflicts)
    ensures FirstDebitConflicts(t1, msg, conflicts) == FirstDebitConflicts(t2, msg, conflicts)
    ensures LedgerAfter(t1, msg, now, debit, t') == LedgerAfter(t2, msg, now, debit, t')
  {
    assert AccountByUserId(t1, msg.userId) == AccountByUserId(t2, msg.userId);
    assert TransactionForOrder(t1, msg.orderId) == TransactionForOrder(t2, msg.orderId);
  }

  /**
   * Intake and the account lookup with TryDebitAsync, for a message not
   * processed yet: the record is stored and found, the verdict is
   * StagedVerdict, the ledger holds the debit exactly when it succeeded, and
   * the handle on the record is still attached exactly when the first save of
   * the debit did not conflict.
   */
  lemma IntakeAndSettle(s: PaymentsCtx, msg: OrderPaymentRequested, conflicts: seq<bool>, now: Instant)
    requires Wf(s) && Clean(s) && AmountsFit(s.committed, msg)
    requires InboxByMessageId(s.committed, msg.messageId).Some? ==>
               InboxByMessageId(s.committed, msg.messageId).value.processedAt.None?
    ensures var (i, s1) := Intake(s, msg, InboxByMessageId(s.committed, msg.messageId), now);
      var (v, s2) := Settle(s1, msg, conflicts, now);
      && i.Ok? && i.value.0 == InboxFor(s, msg, now) && i.value.0.processedAt.None? && i.value.1.id == i.value.0.id
      && i.value.0 in s2.committed.inbox && InboxByMessageId(s2.committed, msg.messageId) == Some(i.value.0)
      && (Attached(s2, i.value.1) <==> !FirstDebitConflicts(s.committed, msg, conflicts))
      && v == Ok(StagedVerdict(s.committed, msg, conflicts))
      && Wf(s2) && Clean(s2) && s2.committed.accounts == s.committed.accounts
      && s2.committed.outbox == s.committed.outbox
      && LedgerAfter(s.committed, msg, now,
                     Debits(s.committed, msg) && !DebitExhaustedFor(s.committed, msg, conflicts), s2.committed)
  {
    var existing := InboxByMessageId(s.committed, msg.messageId);
    IntakeFacts(s, msg, now);
    var s1 := Intake(s, msg, existing, now).1;
    var s2 := Settle(s1, msg, conflicts, now).1;
    SameLedgerSameVerdict(s.committed, s1.committed, msg, conflicts, now,
                          Debits(s.committed, msg) && !DebitExhaustedFor(s.committed, msg, conflicts), s2.committed);
    SettleFacts(s1, msg, conflicts, now);
    SettleLedger(s1, msg, conflicts, now);
    SettleEpoch(s1, msg, conflicts, now);
  }

  /**
   * Everything before the inbox record is marked, for a message not processed
   * yet: as IntakeAndSettle, with the event carrying StagedVerdict saved in
   * one new outbox row.
   */
  lemma PublishOutcome(s: PaymentsCtx, msg: OrderPaymentRequested, conflicts: seq<bool>, now: Instant)
    requires Wf(s) && Clean(s) && AmountsFit(s.committed, msg)
    requires InboxByMessageId(s.committed, msg.messageId).Some? ==>
               InboxByMessageId(s.committed, msg.messageId).value.processedAt.None?
    ensures var (p, s3) := Publish(s, msg, InboxByMessageId(s.committed, msg.messageId), conflicts, now);
      && p.Ok? && p.value.0 == InboxFor(s, msg, now) && p.value.0.processedAt.None? && p.value.1.id == p.value.0.id
      && p.value.0 in s3.committed.inbox && InboxByMessageId(s3.committed, msg.messageId) == Some(p.value.0)
      && (Attached(s3, p.value.1) <==> !FirstDebitConflicts(s.committed, msg, conflicts))
      && p.value.2.orderId == msg.orderId && p.value.2.userId == msg.userId && p.value.2.occurredAt == now
      && (p.value.2.status, p.value.2.reason) == StagedVerdict(s.committed, msg, conflicts)
      && Wf(s3) && Clean(s3) && s3.committed.accounts == s.committed.accounts
      && OutboxAppended(s.committed.outbox, s3.committed.outbox, p.value.2, now)
      && LedgerAfter(s.committed, msg, now,
                     Debits(s.committed, msg) && !DebitExhaustedFor(s.committed, msg, conflicts), s3.committed)
  {
    IntakeAndSettle(s, msg, conflicts, now);
    var (i, s1) := Intake(s, msg, InboxByMessageId(s.committed, msg.messageId), now);
    var (v, s2) := Settle(s1, msg, conflicts, now);
    PublishFacts(s2, msg, v.value.0, v.value.1, now);
    var s3 := PublishResult(s2, msg, v.value.0, v.value.1, now).1;
    assert s3.committed.inbox == s2.committed.inbox;
    LedgerAfterReadsLedgerOnly(s.committed, msg, now,
                               Debits(s.committed, msg) && !DebitExhaustedFor(s.committed, msg, conflicts),
                               s2.committed, s3.committed);
  }

  /**
   * ProcessAsync as written, for a message not processed yet on a store with
   * nothing staged: it reports the event of StagedVerdict after saving it in
   * one new outbox row, with the debit exactly when it succeeded; but the
   * inbox record ends processed only when the first save of the debit did
   * not conflict.
   */
  lemma AsWrittenOutcome(s: PaymentsCtx, msg: OrderPaymentRequested, conflicts: seq<bool>, now: Instant)
    requires Wf(s) && Clean(s) && AmountsFit(s.committed, msg)
    requires InboxByMessageId(s.committed, msg.messageId).Some? ==>
               InboxByMessageId(s.committed, msg.messageId).value.processedAt.None?
    ensures var (r, s') := ProcessAsWrittenSpec(s, msg, conflicts, now);
      && r.Ok? && r.value.Recorded? && Wf(s') && Clean(s')
      && r.value.change.orderId == msg.orderId && r.value.change.userId == msg.userId
      && r.value.change.occurredAt == now
      && (r.value.change.status, r.value.change.reason) == StagedVerdict(s.committed, msg, conflicts)
      && s'.committed.accounts == s.committed.accounts
      && OutboxAppended(s.committed.outbox, s'.committed.outbox, r.value.change, now)
      && LedgerAfter(s.committed, msg, now,
                     Debits(s.committed, msg) && !DebitExhaustedFor(s.committed, msg, conflicts), s'.committed)
      && InboxByMessageId(s'.committed, msg.messageId) ==
           Some(if FirstDebitConflicts(s.committed, msg, conflicts) then InboxFor(s, msg, now)
                else InboxFor(s, msg, now).(processedAt := Some(now)))
  {
    PublishOutcome(s, msg, conflicts, now);
    var (p, s3) := Publish(s, msg, InboxByMessageId(s.committed, msg.messageId), conflicts, now);
    var (inbox, h, evt) := p.value;
    MarkFacts(s3, h, inbox, evt, now);
    var s' := MarkInboxProcessed(s3, h, inbox, evt, now).1;
    if Attached(s3, h) {
      MarkedInboxIsKept(s3.committed.inbox, inbox, now);
      InboxByMessageIdIsUnambiguous(s'.committed, inbox.(processedAt := Some(now)));
    }
    LedgerAfterReadsLedgerOnly(s.committed, msg, now,
                               Debits(s.committed, msg) && !DebitExhaustedFor(s.committed, msg, conflicts),
                               s3.committed, s'.committed);
  }

  /** A message whose inbox record is not processed is never reported as already processed. */
  lemma UnprocessedMessageIsRerun(s: PaymentsCtx, msg: OrderPaymentRequested, conflicts: seq<bool>, now: Instant)
    requires NoVersionedUpdate(s)
    requires InboxByMessageId(s.committed, msg.messageId).Some? ==>
               InboxByMessageId(s.committed, msg.messageId).value.processedAt.None?
    ensures ProcessAsWrittenSpec(s, msg, conflicts, now).0 != Ok(AlreadyProcessed)
    ensures ProcessReattachedSpec(s, msg, conflicts, now).0 != Ok(AlreadyProcessed)
  {
    var existing := InboxByMessageId(s.committed, msg.messageId);
    var (p, s3) := Publish(s, msg, existing, conflicts, now);
    if p.Ok? {
      var (inbox, h, evt) := p.value;
      assert MarkInboxProcessed(s3, h, inbox, evt, now).0 != Ok(AlreadyProcessed);
      assert MarkInboxProcessed(s3, Track(s3, inbox.id), inbox, evt, now).0 != Ok(AlreadyProcessed);
    }
  }

  /**
   * The lost mark, as written: when the first save of a non-zero debit
   * conflicts, TryDebitAsync clears the tracker and the inbox entity kept from
   * the start is detached, so setting ProcessedAtUtc on it saves nothing. The
   * payment and its event are committed, yet the record stays unprocessed and
   * a redelivery of the same message is processed again.
   */
  lemma DetachedInboxIsNotMarked(s: PaymentsCtx, msg: OrderPaymentRequested, conflicts: seq<bool>, now: Instant,
                                 conflicts2: seq<bool>, later: Instant)
    requires Wf(s) && Clean(s) && AmountsFit(s.committed, msg)
    requires InboxByMessageId(s.committed, msg.messageId).None?
    requires FirstDebitConflicts(s.committed, msg, conflicts)
    ensures var (r, s') := ProcessAsWrittenSpec(s, msg, conflicts, now);
      && r.Ok? && r.value.Recorded? && NoVersionedUpdate(s')
      && InboxByMessageId(s'.committed, msg.messageId).Some?
      && InboxByMessageId(s'.committed, msg.messageId).value.processedAt.None?
      && ProcessAsWrittenSpec(s', msg, conflicts2, later).0 != Ok(AlreadyProcessed)
  {
    AsWrittenOutcome(s, msg, conflicts, now);
    var s' := ProcessAsWrittenSpec(s, msg, conflicts, now).1;
    assert NoVersionedUpdate(s') by {
      assert Clean(s');
    }
    UnprocessedMessageIsRerun(s', msg, conflicts2, later);
  }

  /**
   * ProcessAsync with the inbox record re-attached before it is marked: the
   * same event, outbox row and ledger effect as written, and the record always
   * ends processed at `now`.
   */
  lemma ReattachedProcessOutcome(s: PaymentsCtx, msg: OrderPaymentRequested, conflicts: seq<bool>, now: Instant)
    requires Wf(s) && Clean(s) && AmountsFit(s.committed, msg)
    requires InboxByMessageId(s.committed, msg.messageId).Some? ==>
               InboxByMessageId(s.committed, msg.messageId).value.processedAt.None?
    ensures var (r, s') := ProcessReattachedSpec(s, msg, conflicts, now);
      && r.Ok? && r.value.Recorded? && Wf(s') && Clean(s')
      && r.value.change.orderId == msg.orderId && r.value.change.userId == msg.userId
      && r.value.change.occurredAt == now
      && (r.value.change.status, r.value.change.reason) == StagedVerdict(s.committed, msg, conflicts)
      && s'.committed.accounts == s.committed.accounts
      && OutboxAppended(s.committed.outbox, s'.committed.outbox, r.value.change, now)
      && LedgerAfter(s.committed, msg, now,
                     Debits(s.committed, msg) && !DebitExhaustedFor(s.committed, msg, conflicts), s'.committed)
      && InboxByMessageId(s'.committed, msg.messageId) == Some(InboxFor(s, msg, now).(processedAt := Some(now)))
  {
    PublishOutcome(s, msg, conflicts, now);
    var (p, s3) := Publish(s, msg, InboxByMessageId(s.committed, msg.messageId), conflicts, now);
    var (inbox, h, evt) := p.value;
    var h' := Track(s3, inbox.id);
    MarkFacts(s3, h', inbox, evt, now);
    var s' := MarkInboxProcessed(s3, h', inbox, evt, now).1;
    MarkedInboxIsKept(s3.committed.inbox, inbox, now);
    InboxByMessageIdIsUnambiguous(s'.committed, inbox.(processedAt := Some(now)));
    LedgerAfterReadsLedgerOnly(s.committed, msg, now,
                               Debits(s.committed, msg) && !DebitExhaustedFor(s.committed, msg, conflicts),
                               s3.committed, s'.committed);
  }

  /** With the record re-attached, a redelivery after a call that did not throw is skipped and changes nothing. */
  lemma ReattachedRedeliveryIsSkipped(s: PaymentsCtx, msg: OrderPaymentRequested, conflicts: seq<bool>, now: Instant,
                                      conflicts2: seq<bool>, later: Instant)
    requires Wf(s) && Clean(s) && AmountsFit(s.committed, msg)
    requires ProcessReattachedSpec(s, msg, conflicts, now).0.Ok?
    ensures var s' := ProcessReattachedSpec(s, msg, conflicts, now).1;
      NoVersionedUpdate(s') && ProcessReattachedSpec(s', msg, conflicts2, later) == (Ok(AlreadyProcessed), s')
  {
    var existing := InboxByMessageId(s.committed, msg.messageId);
    if !(existing.Some? && existing.value.processedAt.Some?) {
      ReattachedProcessOutcome(s, msg, conflicts, now);
    }
    var s' := ProcessReattachedSpec(s, msg, conflicts, now).1;
    assert NoVersionedUpdate(s') by {
      assert Clean(s');
    }
  }
}

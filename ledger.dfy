/**
 * AccountBalanceService: the balance row of an account, created at zero on
 * first use, and the ledger writes that change it. Top-up and debit each make
 * at most MaxRetry attempts; an attempt whose save meets a version conflict
 * clears the change tracker and starts over from a fresh read.
 *
 * Each operation is a method over a PaymentsDb proved equal to a function of
 * the store's state; `conflicts[i]` says whether the save of attempt i meets a
 * concurrent writer, and `now` is the clock reading of the call.
 */
module Ledger {
  import opened Entities
  import opened Query
  import opened PaymentsSchema
  import opened PaymentsData

  const MaxRetry: nat := 3

  const TopUpExhausted: string := "Unable to top up balance after retries"
  const InsufficientFunds: string := "Insufficient funds"
  const DebitExhausted: string := "Failed to debit after retries"

  /** The (Success, Error) pair TryDebitAsync and DebitWithoutSaveAsync return. */
  datatype DebitResult = DebitResult(success: bool, error: Option<string>)

  /** The save of attempt i meets a concurrent writer; attempts past the oracle's end do not. */
  function ConflictAt(conflicts: seq<bool>, i: nat): bool
  {
    i < |conflicts| && conflicts[i]
  }

  /** The tracker holds no modified balance row, so a save has nothing a version conflict can hit. */
  predicate NoVersionedUpdate(s: PaymentsCtx)
  {
    !UpdatesVersionedRow(s.committed, s.pending)
  }

  /** The balance GetBalanceAsync reports for an account: the stored one, zero before the row exists. */
  function BalanceOf(t: PaymentsTables, accountId: Guid): Cents
  {
    if accountId in t.balances then t.balances[accountId].balance else 0
  }

  /**
   * FirstOrDefault on AccountBalances: the query finds stored rows only; a row
   * the tracker already follows comes back as the tracked instance.
   */
  function FindBalance(s: PaymentsCtx, accountId: Guid): (r: Option<AccountBalance>)
    ensures r.Some? <==> accountId in s.committed.balances
    ensures Clean(s) && r.Some? ==> r.value == s.committed.balances[accountId]
  {
    if accountId !in s.committed.balances then None
    else if accountId in s.pending.balances then Some(s.pending.balances[accountId])
    else Some(s.committed.balances[accountId])
  }

  /** FirstOrDefault on AccountTransactions by OrderId: the ledger row already written for the order. */
  function TransactionForOrder(t: PaymentsTables, orderId: Guid): (r: Option<AccountTransaction>)
    ensures r.Some? ==> r.value in t.transactions && r.value.orderId == Some(orderId)
    ensures r.None? <==> forall x :: x in t.transactions ==> x.orderId != Some(orderId)
  {
    FirstWhere(t.transactions, (x: AccountTransaction) => x.orderId == Some(orderId))
  }

  /**
   * GetBalanceAsync: the account's balance row; when there is none, a row with
   * balance 0 is added and saved first. The save only inserts, so it cannot
   * meet a version conflict; a store that refuses it makes the call throw.
   */
  function GetBalanceSpec(s: PaymentsCtx, accountId: Guid): (r: (Outcome<AccountBalance>, PaymentsCtx))
    requires NoVersionedUpdate(s)
    ensures NoVersionedUpdate(r.1) && r.1.epoch == s.epoch && r.1.nextId == s.nextId
    ensures r.0.Ok? ==> r.0.value.accountId == accountId || accountId in s.committed.balances
    ensures r.0.Ok? ==> accountId in r.1.committed.balances
    ensures r.0.Threw? ==> r.0.fault == StoreRejected
    ensures r.1.committed == s.committed || r.1.committed == StageBalance(s, AccountBalance(accountId, 0, 0)).pending
  {
    match FindBalance(s, accountId)
    case Some(b) => (Ok(b), s)
    case None =>
      var zero := AccountBalance(accountId, 0, 0);
      var (res, s1) := Save(StageBalance(s, zero), false);
      if res == Saved then (Ok(zero), s1) else (Threw(StoreRejected), s1)
  }

  /**
   * One ledger write on a balance row read in this attempt: `balance.Balance +=
   * delta`, then a new AccountTransaction for the account with that Delta.
   */
  function StageLedgerWrite(s: PaymentsCtx, b: AccountBalance, accountId: Guid, orderId: Option<Guid>,
                            delta: Cents, now: Instant): (r: PaymentsCtx)
    ensures b.accountId in r.pending.balances && r.committed == s.committed && r.epoch == s.epoch
  {
    var s1 := StageBalance(s, b.(balance := b.balance + delta));
    var (id, s2) := NewId(s1);
    StageTransaction(s2, AccountTransaction(id, accountId, orderId, delta, now))
  }

  /** How one attempt of a retry loop ends: with the call's result, or cleared for another attempt. */
  datatype Attempt<T> = Done(result: Outcome<T>, state: PaymentsCtx) | Retry(state: PaymentsCtx)

  /** One pass of TopUpAsync's loop, whose save meets a concurrent writer iff `conflict`. */
  function TopUpAttempt(s: PaymentsCtx, accountId: Guid, amount: Cents, conflict: bool, now: Instant): (r: Attempt<AccountBalance>)
    requires NoVersionedUpdate(s)
    ensures r.Retry? ==> Clean(r.state)
  {
    var (g, s1) := GetBalanceSpec(s, accountId);
    if g.Threw? then Done(g, s1)
    else
      var (res, s2) := Save(StageLedgerWrite(s1, g.value, accountId, None, amount, now), conflict);
      match res
      case Saved => Done(Ok(s2.committed.balances[g.value.accountId]), s2)
      case Conflict => Retry(Clear(s2))
      case Rejected => Done(Threw(StoreRejected), s2)
  }

  /** TopUpAsync from attempt `attempt` of the loop on. */
  function TopUpFrom(s: PaymentsCtx, accountId: Guid, amount: Cents, conflicts: seq<bool>, now: Instant,
                     attempt: nat): (r: (Outcome<AccountBalance>, PaymentsCtx))
    requires NoVersionedUpdate(s)
    decreases MaxRetry - attempt
  {
    if attempt >= MaxRetry then (Threw(InvalidOperation(TopUpExhausted)), s)
    else
      match TopUpAttempt(s, accountId, amount, ConflictAt(conflicts, attempt), now)
      case Done(r, s') => (r, s')
      case Retry(s') => TopUpFrom(s', accountId, amount, conflicts, now, attempt + 1)
  }

  function TopUpSpec(s: PaymentsCtx, accountId: Guid, amount: Cents, conflicts: seq<bool>, now: Instant): (Outcome<AccountBalance>, PaymentsCtx)
    requires NoVersionedUpdate(s)
  {
    TopUpFrom(s, accountId, amount, conflicts, now, 0)
  }

  /** One pass of TryDebitAsync's loop, whose save meets a concurrent writer iff `conflict`. */
  function TryDebitAttempt(s: PaymentsCtx, accountId: Guid, orderId: Guid, amount: Cents, conflict: bool,
                           now: Instant): (r: Attempt<DebitResult>)
    requires NoVersionedUpdate(s)
    ensures r.Retry? ==> Clean(r.state)
  {
    if TransactionForOrder(s.committed, orderId).Some? then Done(Ok(DebitResult(true, None)), s)
    else
      var (g, s1) := GetBalanceSpec(s, accountId);
      DebitAfterRead(g, s1, accountId, orderId, amount, conflict, now)
  }

  /** The rest of a debit attempt once the balance has been read as `g`. */
  function DebitAfterRead(g: Outcome<AccountBalance>, s1: PaymentsCtx, accountId: Guid, orderId: Guid, amount: Cents,
                          conflict: bool, now: Instant): (r: Attempt<DebitResult>)
    ensures r.Retry? ==> Clean(r.state)
  {
    if g.Threw? then Done(Threw(g.fault), s1)
    else if g.value.balance < amount then Done(Ok(DebitResult(false, Some(InsufficientFunds))), s1)
    else
      var (res, s2) := Save(StageLedgerWrite(s1, g.value, accountId, Some(orderId), -amount, now), conflict);
      match res
      case Saved => Done(Ok(DebitResult(true, None)), s2)
      case Conflict => Retry(Clear(s2))
      case Rejected => Done(Threw(StoreRejected), s2)
  }

  /** TryDebitAsync from attempt `attempt` of the loop on. */
  function TryDebitFrom(s: PaymentsCtx, accountId: Guid, orderId: Guid, amount: Cents, conflicts: seq<bool>,
                        now: Instant, attempt: nat): (r: (Outcome<DebitResult>, PaymentsCtx))
    requires NoVersionedUpdate(s)
    decreases MaxRetry - attempt
  {
    if attempt >= MaxRetry then (Ok(DebitResult(false, Some(DebitExhausted))), s)
    else
      match TryDebitAttempt(s, accountId, orderId, amount, ConflictAt(conflicts, attempt), now)
      case Done(r, s') => (r, s')
      case Retry(s') => TryDebitFrom(s', accountId, orderId, amount, conflicts, now, attempt + 1)
  }

  function TryDebitSpec(s: PaymentsCtx, accountId: Guid, orderId: Guid, amount: Cents, conflicts: seq<bool>,
                        now: Instant): (Outcome<DebitResult>, PaymentsCtx)
    requires NoVersionedUpdate(s)
  {
    TryDebitFrom(s, accountId, orderId, amount, conflicts, now, 0)
  }

  /** DebitWithoutSaveAsync: the checks and the staging of one debit attempt, with no save of its own. */
  function DebitWithoutSaveSpec(s: PaymentsCtx, accountId: Guid, orderId: Guid, amount: Cents, now: Instant): (r: (Outcome<DebitResult>, PaymentsCtx))
    requires NoVersionedUpdate(s)
    ensures r.1.nextId >= s.nextId && r.1.epoch == s.epoch
    ensures r.1.committed == s.committed || r.1.committed == StageBalance(s, AccountBalance(accountId, 0, 0)).pending
    ensures TransactionForOrder(s.committed, orderId).Some? ==> r == (Ok(DebitResult(true, None)), s)
    ensures r.0.Threw? ==> r.0.fault == StoreRejected
    ensures r.0.Ok? ==> r.0.value == DebitResult(true, None) || r.0.value == DebitResult(false, Some(InsufficientFunds))
  {
    if TransactionForOrder(s.committed, orderId).Some? then (Ok(DebitResult(true, None)), s)
    else
      var (g, s1) := GetBalanceSpec(s, accountId);
      if g.Threw? then (Threw(g.fault), s1)
      else if g.value.balance < amount then (Ok(DebitResult(false, Some(InsufficientFunds))), s1)
      else (Ok(DebitResult(true, None)), StageLedgerWrite(s1, g.value, accountId, Some(orderId), -amount, now))
  }

  method GetBalance(db: PaymentsDb, accountId: Guid) returns (r: Outcome<AccountBalance>)
    requires NoVersionedUpdate(db.State())
    modifies db
    ensures (r, db.State()) == GetBalanceSpec(old(db.State()), accountId)
  {
    var found := FindBalance(db.State(), accountId);
    if found.Some? {
      return Ok(found.value);
    }
    var zero := AccountBalance(accountId, 0, 0);
    db.AddBalance(zero);
    var res := db.SaveChanges(false);
    r := if res == Saved then Ok(zero) else Threw(StoreRejected);
  }

  /** Stages one ledger write through the tracker and saves it. */
  method SaveLedgerWrite(db: PaymentsDb, b: AccountBalance, accountId: Guid, orderId: Option<Guid>, delta: Cents,
                         conflict: bool, now: Instant) returns (res: SaveResult)
    modifies db
    ensures (res, db.State()) == Save(StageLedgerWrite(old(db.State()), b, accountId, orderId, delta, now), conflict)
  {
    db.AddBalance(b.(balance := b.balance + delta));
    var id := db.NewGuid();
    db.AddTransaction(AccountTransaction(id, accountId, orderId, delta, now));
    res := db.SaveChanges(conflict);
  }

  /** One pass of TopUpAsync's loop body, the catch block's Clear included. */
  method TopUpOnce(db: PaymentsDb, accountId: Guid, amount: Cents, conflict: bool, now: Instant)
    returns (done: bool, r: Outcome<AccountBalance>)
    requires NoVersionedUpdate(db.State())
    modifies db
    ensures var a := TopUpAttempt(old(db.State()), accountId, amount, conflict, now);
      a.state == db.State() && (done <==> a.Done?) && (done ==> r == a.result)
  {
    var g := GetBalance(db, accountId);
    if g.Threw? {
      return true, g;
    }
    var res := SaveLedgerWrite(db, g.value, accountId, None, amount, conflict, now);
    if res == Saved {
      return true, Ok(db.committed.balances[g.value.accountId]);
    } else if res == Rejected {
      return true, Threw(StoreRejected);
    }
    db.ClearTracker();
    done, r := false, g;
  }

  /** One turn of the loop: the outcome of the attempt, or the loop from the next attempt on. */
  lemma TopUpFromStep(s: PaymentsCtx, accountId: Guid, amount: Cents, conflicts: seq<bool>, now: Instant, attempt: nat)
    requires NoVersionedUpdate(s) && attempt < MaxRetry
    ensures TopUpFrom(s, accountId, amount, conflicts, now, attempt) ==
      match TopUpAttempt(s, accountId, amount, ConflictAt(conflicts, attempt), now)
      case Done(r, s') => (r, s')
      case Retry(s') => TopUpFrom(s', accountId, amount, conflicts, now, attempt + 1)
  {
  }

  method TopUp(db: PaymentsDb, accountId: Guid, amount: Cents, conflicts: seq<bool>, now: Instant)
    returns (r: Outcome<AccountBalance>)
    requires NoVersionedUpdate(db.State())
    modifies db
    ensures (r, db.State()) == TopUpSpec(old(db.State()), accountId, amount, conflicts, now)
  {
    ghost var spec := TopUpSpec(db.State(), accountId, amount, conflicts, now);
    for attempt := 0 to MaxRetry
      invariant NoVersionedUpdate(db.State())
      invariant TopUpFrom(db.State(), accountId, amount, conflicts, now, attempt) == spec
    {
      ghost var s0 := db.State();
      var done;
      done, r := TopUpOnce(db, accountId, amount, ConflictAt(conflicts, attempt), now);
      TopUpFromStep(s0, accountId, amount, conflicts, now, attempt);
      if done {
        return;
      }
    }
    r := Threw(InvalidOperation(TopUpExhausted));
  }

  /** The rest of TryDebitAsync's loop body once the balance has been read as `g`. */
  method DebitAfterReadOnce(db: PaymentsDb, g: Outcome<AccountBalance>, accountId: Guid, orderId: Guid, amount: Cents,
                            conflict: bool, now: Instant) returns (done: bool, r: Outcome<DebitResult>)
    modifies db
    ensures var a := DebitAfterRead(g, old(db.State()), accountId, orderId, amount, conflict, now);
      a.state == db.State() && (done <==> a.Done?) && (done ==> r == a.result)
  {
    if g.Threw? {
      return true, Threw(g.fault);
    }
    if g.value.balance < amount {
      return true, Ok(DebitResult(false, Some(InsufficientFunds)));
    }
    var res := SaveLedgerWrite(db, g.value, accountId, Some(orderId), -amount, conflict, now);
    if res == Saved {
      return true, Ok(DebitResult(true, None));
    } else if res == Rejected {
      return true, Threw(StoreRejected);
    }
    db.ClearTracker();
    done, r := false, Ok(DebitResult(false, None));
  }

  /** One pass of TryDebitAsync's loop body, the catch block's Clear included. */
  method TryDebitOnce(db: PaymentsDb, accountId: Guid, orderId: Guid, amount: Cents, conflict: bool, now: Instant)
    returns (done: bool, r: Outcome<DebitResult>)
    requires NoVersionedUpdate(db.State())
    modifies db
    ensures var a := TryDebitAttempt(old(db.State()), accountId, orderId, amount, conflict, now);
      a.state == db.State() && (done <==> a.Done?) && (done ==> r == a.result)
  {
    if TransactionForOrder(db.committed, orderId).Some? {
      return true, Ok(DebitResult(true, None));
    }
    var g := GetBalance(db, accountId);
    done, r := DebitAfterReadOnce(db, g, accountId, orderId, amount, conflict, now);
  }

  /** One turn of the loop: the outcome of the attempt, or the loop from the next attempt on. */
  lemma TryDebitFromStep(s: PaymentsCtx, accountId: Guid, orderId: Guid, amount: Cents, conflicts: seq<bool>, now: Instant, attempt: nat)
    requires NoVersionedUpdate(s) && attempt < MaxRetry
    ensures TryDebitFrom(s, accountId, orderId, amount, conflicts, now, attempt) ==
      match TryDebitAttempt(s, accountId, orderId, amount, ConflictAt(conflicts, attempt), now)
      case Done(r, s') => (r, s')
      case Retry(s') => TryDebitFrom(s', accountId, orderId, amount, conflicts, now, attempt + 1)
  {
  }

  method TryDebit(db: PaymentsDb, accountId: Guid, orderId: Guid, amount: Cents, conflicts: seq<bool>, now: Instant)
    returns (r: Outcome<DebitResult>)
    requires NoVersionedUpdate(db.State())
    modifies db
    ensures (r, db.State()) == TryDebitSpec(old(db.State()), accountId, orderId, amount, conflicts, now)
  {
    ghost var spec := TryDebitSpec(db.State(), accountId, orderId, amount, conflicts, now);
    for attempt := 0 to MaxRetry
      invariant NoVersionedUpdate(db.State())
      invariant TryDebitFrom(db.State(), accountId, orderId, amount, conflicts, now, attempt) == spec
    {
      ghost var s0 := db.State();
      var done;
      done, r := TryDebitOnce(db, accountId, orderId, amount, ConflictAt(conflicts, attempt), now);
      TryDebitFromStep(s0, accountId, orderId, amount, conflicts, now, attempt);
      if done {
        return;
      }
    }
    r := Ok(DebitResult(false, Some(DebitExhausted)));
  }

  method DebitWithoutSave(db: PaymentsDb, accountId: Guid, orderId: Guid, amount: Cents, now: Instant)
    returns (r: Outcome<DebitResult>)
    requires NoVersionedUpdate(db.State())
    modifies db
    ensures (r, db.State()) == DebitWithoutSaveSpec(old(db.State()), accountId, orderId, amount, now)
  {
    if TransactionForOrder(db.committed, orderId).Some? {
      return Ok(DebitResult(true, None));
    }
    var g := GetBalance(db, accountId);
    if g.Threw? {
      return Threw(g.fault);
    }
    if g.value.balance < amount {
      return Ok(DebitResult(false, Some(InsufficientFunds)));
    }
    db.AddBalance(g.value.(balance := g.value.balance - amount));
    var id := db.NewGuid();
    db.AddTransaction(AccountTransaction(id, accountId, Some(orderId), -amount, now));
    r := Ok(DebitResult(true, None));
  }
}

/** What the ledger operations promise, stated over their specifications. */
module LedgerFacts {
  import opened Entities
  import opened Query
  import opened PaymentsSchema
  import opened PaymentsData
  import opened Ledger

  /** The stored tables once GetBalanceAsync has made sure the account has a balance row. */
  function WithBalanceRow(t: PaymentsTables, accountId: Guid): PaymentsTables
  {
    if accountId in t.balances then t else t.(balances := t.balances[accountId := AccountBalance(accountId, 0, 0)])
  }

  /** `after` is `before` plus one new ledger row for the account, the order and the delta. */
  predicate AppendedOne(before: seq<AccountTransaction>, after: seq<AccountTransaction>, accountId: Guid,
                        orderId: Option<Guid>, delta: Cents, now: Instant)
  {
    && |after| == |before| + 1 && after[..|before|] == before
    && after[|before|].accountId == accountId && after[|before|].orderId == orderId
    && after[|before|].delta == delta && after[|before|].createdAt == now
  }

  /** Accounts, inbox and outbox are as they were. */
  predicate OtherTablesKept(t: PaymentsTables, t': PaymentsTables)
  {
    t'.accounts == t.accounts && t'.inbox == t.inbox && t'.outbox == t.outbox
  }

  /** Every attempt from `from` on meets a concurrent writer. */
  predicate AllConflict(conflicts: seq<bool>, from: nat)
    decreases MaxRetry - from
  {
    from >= MaxRetry || (ConflictAt(conflicts, from) && AllConflict(conflicts, from + 1))
  }

  /**
   * Accounts, balances and ledger rows are as stored, so only inbox and outbox
   * rows may be staged, and the staged tables satisfy the store's constraints.
   */
  ghost predicate LedgerSettled(s: PaymentsCtx)
  {
    && Wf(s) && Constraints(s.pending)
    && s.pending.accounts == s.committed.accounts
    && s.pending.balances == s.committed.balances
    && s.pending.transactions == s.committed.transactions
  }

  /**
   * GetBalanceAsync when no account, balance or ledger row is staged: an
   * existing row is returned as stored and nothing changes; otherwise a row
   * with balance 0 is saved, together with whatever else was staged, and returned.
   */
  lemma GetBalanceOnSettledStore(s: PaymentsCtx, accountId: Guid)
    requires LedgerSettled(s)
    ensures var (g, s') := GetBalanceSpec(s, accountId);
      && g.Ok? && g.value.accountId == accountId && g.value.balance == BalanceOf(s.committed, accountId)
      && LedgerSettled(s') && s'.epoch == s.epoch && s'.nextId == s.nextId
      && s'.pending == WithBalanceRow(s.pending, accountId)
      && s'.committed.balances == WithBalanceRow(s.committed, accountId).balances
      && s'.committed.accounts == s.committed.accounts && s'.committed.transactions == s.committed.transactions
      && g.value == s'.committed.balances[accountId]
      && (accountId in s.committed.balances ==> s' == s)
      && (accountId !in s.committed.balances ==> Clean(s'))
  {
    if accountId !in s.committed.balances {
      var zero := AccountBalance(accountId, 0, 0);
      var p := StageBalance(s, zero).pending;
      assert forall k | k in s.committed.balances :: p.balances[k] == s.committed.balances[k];
      CommitWithoutUpdateWritesStaged(s.committed, p, false);
      assert Constraints(p);
    }
  }

  /**
   * GetBalanceAsync on a store with nothing staged: an existing row is returned
   * as stored and nothing changes; otherwise a row with balance 0 is saved and
   * returned.
   */
  lemma GetBalanceOnCleanStore(s: PaymentsCtx, accountId: Guid)
    requires Wf(s) && Clean(s)
    ensures var (g, s') := GetBalanceSpec(s, accountId);
      && g.Ok? && g.value.accountId == accountId && g.value.balance == BalanceOf(s.committed, accountId)
      && Wf(s') && Clean(s') && s'.committed == WithBalanceRow(s.committed, accountId)
      && g.value == s'.committed.balances[accountId]
      && (accountId in s.committed.balances ==> s' == s)
  {
    GetBalanceOnSettledStore(s, accountId);
  }

  /**
   * The tables a ledger write stages on the stored balance row still satisfy
   * the store's constraints once versions are stamped: the new balance and
   * delta fit numeric(18,2), the new row's Id is fresh, and its order has no
   * ledger row yet.
   */
  lemma LedgerWriteFits(s: PaymentsCtx, b: AccountBalance, accountId: Guid, orderId: Option<Guid>, delta: Cents, now: Instant)
    requires LedgerSettled(s) && accountId in s.committed.balances && b == s.committed.balances[accountId]
    requires MoneyFits(delta) && MoneyFits(b.balance + delta)
    requires orderId.Some? ==> TransactionForOrder(s.committed, orderId.value).None?
    ensures var p := StageLedgerWrite(s, b, accountId, orderId, delta, now).pending;
      && p.balances == s.committed.balances[accountId := b.(balance := b.balance + delta)]
      && p.transactions == s.committed.transactions + [AccountTransaction(s.nextId, accountId, orderId, delta, now)]
      && Constraints(StampVersions(s.committed, p))
  {
    var c := s.committed;
    var p := StageLedgerWrite(s, b, accountId, orderId, delta, now).pending;
    assert p.transactions == c.transactions + [AccountTransaction(s.nextId, accountId, orderId, delta, now)];
    var t := StampVersions(c, p);
    assert BalanceConstraints(t.balances) by {
      forall k | k in t.balances
        ensures t.balances[k].accountId == k && MoneyFits(t.balances[k].balance)
      {
        assert t.balances[k] == p.balances[k].(version := t.balances[k].version);
      }
    }
    assert TransactionConstraints(t.transactions) by {
      var n := |c.transactions|;
      forall i, j | 0 <= i < j < |t.transactions|
        ensures t.transactions[i].id != t.transactions[j].id
        ensures t.transactions[i].orderId.Some? ==> t.transactions[i].orderId != t.transactions[j].orderId
      {
        if j == n {
          assert t.transactions[i] in c.transactions;
        } else {
          assert t.transactions[i] == c.transactions[i] && t.transactions[j] == c.transactions[j];
        }
      }
      forall i | 0 <= i < |t.transactions| ensures MoneyFits(t.transactions[i].delta)
      {
        if i < n { assert t.transactions[i] == c.transactions[i]; }
      }
    }
  }

  /**
   * A ledger write staged on the stored balance row when nothing of the ledger
   * is staged yet: the tracker holds the moved balance and one more ledger row,
   * the store is untouched, and the staged tables are acceptable to the store
   * when the amounts fit and the order has no ledger row.
   */
  lemma LedgerWriteStaged(s: PaymentsCtx, b: AccountBalance, accountId: Guid, orderId: Option<Guid>, delta: Cents, now: Instant)
    requires LedgerSettled(s) && accountId in s.committed.balances && b == s.committed.balances[accountId]
    ensures var s' := StageLedgerWrite(s, b, accountId, orderId, delta, now);
      && Wf(s') && s'.committed == s.committed && s'.epoch == s.epoch
      && s'.pending.accounts == s.pending.accounts && s'.pending.inbox == s.pending.inbox
      && s'.pending.outbox == s.pending.outbox
      && s'.pending.balances == s.committed.balances[accountId := b.(balance := b.balance + delta)]
      && AppendedOne(s.committed.transactions, s'.pending.transactions, accountId, orderId, delta, now)
      && (MoneyFits(delta) && MoneyFits(b.balance + delta)
          && (orderId.Some? ==> TransactionForOrder(s.committed, orderId.value).None?) ==>
            Constraints(StampVersions(s.committed, s'.pending)))
  {
    var p := StageLedgerWrite(s, b, accountId, orderId, delta, now).pending;
    assert p.transactions == s.committed.transactions + [AccountTransaction(s.nextId, accountId, orderId, delta, now)];
    assert p.transactions[..|s.committed.transactions|] == s.committed.transactions;
    if MoneyFits(delta) && MoneyFits(b.balance + delta) && (orderId.Some? ==> TransactionForOrder(s.committed, orderId.value).None?) {
      LedgerWriteFits(s, b, accountId, orderId, delta, now);
    }
  }

  /**
   * One ledger write on the stored balance row of the account, saved: it meets
   * a conflict exactly when the oracle says so and the balance really changes
   * (a zero delta updates no versioned row); otherwise it is committed, moving
   * the balance by delta and appending one ledger row.
   */
  lemma LedgerWriteCommits(s: PaymentsCtx, b: AccountBalance, accountId: Guid, orderId: Option<Guid>, delta: Cents,
                           now: Instant, conflict: bool)
    requires Wf(s) && Clean(s) && accountId in s.committed.balances && b == s.committed.balances[accountId]
    requires MoneyFits(delta) && MoneyFits(b.balance + delta)
    requires orderId.Some? ==> TransactionForOrder(s.committed, orderId.value).None?
    ensures var r := Save(StageLedgerWrite(s, b, accountId, orderId, delta, now), conflict);
      && (r.0 == if conflict && delta != 0 then Conflict else Saved)
      && (r.0 == Conflict ==> r.1.committed == s.committed)
      && (r.0 == Saved ==>
            && Wf(r.1) && OtherTablesKept(s.committed, r.1.committed)
            && r.1.committed.balances == s.committed.balances[accountId := r.1.committed.balances[accountId]]
            && r.1.committed.balances[accountId].accountId == accountId
            && r.1.committed.balances[accountId].balance == b.balance + delta
            && AppendedOne(s.committed.transactions, r.1.committed.transactions, accountId, orderId, delta, now))
  {
    LedgerWriteFits(s, b, accountId, orderId, delta, now);
    var c := s.committed;
    var b' := b.(balance := b.balance + delta);
    var p := StageLedgerWrite(s, b, accountId, orderId, delta, now).pending;
    if delta == 0 {
      assert b' == b;
      assert p.balances == c.balances;
      assert !UpdatesVersionedRow(c, p);
    } else {
      assert BalanceChanged(c, p, accountId);
    }
    var t := StampVersions(c, p);
    assert t.transactions[..|c.transactions|] == c.transactions;
  }

  /** What TopUpAsync's loop from `attempt` on promises on a store with nothing staged. */
  predicate TopUpPromise(s: PaymentsCtx, accountId: Guid, amount: Cents, conflicts: seq<bool>, now: Instant,
                         attempt: nat, r: Outcome<AccountBalance>, s': PaymentsCtx)
  {
    && OtherTablesKept(s.committed, s'.committed)
    && (r.Threw? <==> amount != 0 && AllConflict(conflicts, attempt))
    && (r.Threw? ==> r.fault == InvalidOperation(TopUpExhausted)
                     && s'.committed == WithBalanceRow(s.committed, accountId))
    && (r.Ok? ==> && r.value.accountId == accountId
                  && r.value.balance == BalanceOf(s.committed, accountId) + amount
                  && s'.committed.balances == s.committed.balances[accountId := r.value]
                  && AppendedOne(s.committed.transactions, s'.committed.transactions, accountId, None, amount, now))
  }

  /** An attempt whose save meets no conflict ends the loop with the top-up done. */
  lemma TopUpAttemptCommits(s: PaymentsCtx, accountId: Guid, amount: Cents, conflicts: seq<bool>, now: Instant, attempt: nat)
    requires Wf(s) && Clean(s) && attempt < MaxRetry
    requires MoneyFits(amount) && MoneyFits(BalanceOf(s.committed, accountId) + amount)
    requires !(ConflictAt(conflicts, attempt) && amount != 0)
    ensures Wf(TopUpFrom(s, accountId, amount, conflicts, now, attempt).1)
    ensures TopUpPromise(s, accountId, amount, conflicts, now, attempt,
                         TopUpFrom(s, accountId, amount, conflicts, now, attempt).0,
                         TopUpFrom(s, accountId, amount, conflicts, now, attempt).1)
  {
    GetBalanceOnCleanStore(s, accountId);
    var gs := GetBalanceSpec(s, accountId);
    var s1 := gs.1;
    var c := ConflictAt(conflicts, attempt);
    LedgerWriteCommits(s1, gs.0.value, accountId, None, amount, now, c);
    var s2 := Save(StageLedgerWrite(s1, gs.0.value, accountId, None, amount, now), c).1;
    var r := s2.committed.balances[accountId];
    assert TopUpAttempt(s, accountId, amount, c, now) == Done(Ok(r), s2);
    TopUpFromStep(s, accountId, amount, conflicts, now, attempt);
    assert s2.committed.balances == s.committed.balances[accountId := r];
    assert !AllConflict(conflicts, attempt) || amount == 0;
  }

  /** An attempt whose save meets a conflict leaves a cleared tracker and the store as the read left it. */
  lemma TopUpAttemptConflicts(s: PaymentsCtx, accountId: Guid, amount: Cents, conflicts: seq<bool>, now: Instant, attempt: nat)
    requires Wf(s) && Clean(s) && attempt < MaxRetry
    requires MoneyFits(amount) && MoneyFits(BalanceOf(s.committed, accountId) + amount)
    requires ConflictAt(conflicts, attempt) && amount != 0
    ensures var a := TopUpAttempt(s, accountId, amount, ConflictAt(conflicts, attempt), now);
      a.Retry? && Wf(a.state) && Clean(a.state) && a.state.committed == WithBalanceRow(s.committed, accountId)
  {
    GetBalanceOnCleanStore(s, accountId);
    var gs := GetBalanceSpec(s, accountId);
    LedgerWriteCommits(gs.1, gs.0.value, accountId, None, amount, now, true);
  }

  /** What the loop promises from the next attempt on carries over to this attempt once it has conflicted. */
  lemma TopUpPromiseAfterConflict(s: PaymentsCtx, s3: PaymentsCtx, accountId: Guid, amount: Cents, conflicts: seq<bool>,
                                  now: Instant, attempt: nat, r: Outcome<AccountBalance>, s': PaymentsCtx)
    requires s3.committed == WithBalanceRow(s.committed, accountId)
    requires ConflictAt(conflicts, attempt) && amount != 0 && attempt < MaxRetry
    requires TopUpPromise(s3, accountId, amount, conflicts, now, attempt + 1, r, s')
    ensures TopUpPromise(s, accountId, amount, conflicts, now, attempt, r, s')
  {
    assert BalanceOf(s3.committed, accountId) == BalanceOf(s.committed, accountId);
    assert WithBalanceRow(s3.committed, accountId) == WithBalanceRow(s.committed, accountId);
    if r.Ok? {
      assert s'.committed.balances == s.committed.balances[accountId := r.value];
    }
  }

  /**
   * TopUpAsync's loop on a store with nothing staged, given that the amount
   * and the new balance fit numeric(18,2): it throws only when every remaining
   * attempt meets a conflict and the amount is not zero; on success the
   * balance grows by exactly the amount and one ledger row without an order
   * is appended; nothing else in the store changes.
   */
  lemma {:induction false} TopUpFromClean(s: PaymentsCtx, accountId: Guid, amount: Cents, conflicts: seq<bool>,
                                          now: Instant, attempt: nat)
    requires Wf(s) && Clean(s) && attempt < MaxRetry
    requires MoneyFits(amount) && MoneyFits(BalanceOf(s.committed, accountId) + amount)
    ensures Wf(TopUpFrom(s, accountId, amount, conflicts, now, attempt).1)
    ensures TopUpPromise(s, accountId, amount, conflicts, now, attempt,
                         TopUpFrom(s, accountId, amount, conflicts, now, attempt).0,
                         TopUpFrom(s, accountId, amount, conflicts, now, attempt).1)
    decreases MaxRetry - attempt
  {
    if ConflictAt(conflicts, attempt) && amount != 0 {
      TopUpAttemptConflicts(s, accountId, amount, conflicts, now, attempt);
      var s3 := TopUpAttempt(s, accountId, amount, ConflictAt(conflicts, attempt), now).state;
      TopUpFromStep(s, accountId, amount, conflicts, now, attempt);
      var result := TopUpFrom(s3, accountId, amount, conflicts, now, attempt + 1);
      if attempt + 1 < MaxRetry {
        TopUpFromClean(s3, accountId, amount, conflicts, now, attempt + 1);
      } else {
        assert result == (Threw(InvalidOperation(TopUpExhausted)), s3);
      }
      TopUpPromiseAfterConflict(s, s3, accountId, amount, conflicts, now, attempt, result.0, result.1);
    } else {
      TopUpAttemptCommits(s, accountId, amount, conflicts, now, attempt);
    }
  }

  /** TopUpAsync: at most MaxRetry attempts, then InvalidOperationException; otherwise the top-up, exactly. */
  lemma TopUpOutcome(s: PaymentsCtx, accountId: Guid, amount: Cents, conflicts: seq<bool>, now: Instant)
    requires Wf(s) && Clean(s)
    requires MoneyFits(amount) && MoneyFits(BalanceOf(s.committed, accountId) + amount)
    ensures var r := TopUpSpec(s, accountId, amount, conflicts, now).0;
      && (r.Ok? || r == Threw(InvalidOperation(TopUpExhausted)))
      && (r.Threw? <==> amount != 0 && ConflictAt(conflicts, 0) && ConflictAt(conflicts, 1) && ConflictAt(conflicts, 2))
    ensures TopUpPromise(s, accountId, amount, conflicts, now, 0,
                         TopUpSpec(s, accountId, amount, conflicts, now).0, TopUpSpec(s, accountId, amount, conflicts, now).1)
  {
    TopUpFromClean(s, accountId, amount, conflicts, now, 0);
  }

  /**
   * TopUpAsync whose new balance does not fit numeric(18,2): when the first
   * save meets no concurrent writer, the store refuses it, the call throws the
   * database exception and only the zero row GetBalanceAsync created is kept.
   */
  lemma TopUpOverflowIsRejected(s: PaymentsCtx, accountId: Guid, amount: Cents, conflicts: seq<bool>, now: Instant)
    requires Wf(s) && Clean(s) && !ConflictAt(conflicts, 0)
    requires !MoneyFits(BalanceOf(s.committed, accountId) + amount)
    ensures TopUpSpec(s, accountId, amount, conflicts, now).0 == Threw(StoreRejected)
    ensures TopUpSpec(s, accountId, amount, conflicts, now).1.committed == WithBalanceRow(s.committed, accountId)
  {
    GetBalanceOnCleanStore(s, accountId);
    var gs := GetBalanceSpec(s, accountId);
    var s2 := StageLedgerWrite(gs.1, gs.0.value, accountId, None, amount, now);
    var t := StampVersions(s2.committed, s2.pending);
    assert t.balances[accountId].balance == BalanceOf(s.committed, accountId) + amount;
    assert !Constraints(t);
    assert Save(s2, false).0 == Rejected;
    TopUpFromStep(s, accountId, amount, conflicts, now, 0);
  }

  /**
   * TryDebitAsync on an undebited, funded account whose new balance does not
   * fit numeric(18,2) (a negative amount): when the first save meets no
   * concurrent writer, the store refuses it and the database exception leaves
   * the loop; only the zero row GetBalanceAsync created is kept.
   */
  lemma TryDebitOverflowIsRejected(s: PaymentsCtx, accountId: Guid, orderId: Guid, amount: Cents, conflicts: seq<bool>,
                                   now: Instant)
    requires Wf(s) && Clean(s) && !ConflictAt(conflicts, 0)
    requires TransactionForOrder(s.committed, orderId).None? && BalanceOf(s.committed, accountId) >= amount
    requires !MoneyFits(BalanceOf(s.committed, accountId) - amount)
    ensures TryDebitSpec(s, accountId, orderId, amount, conflicts, now).0 == Threw(StoreRejected)
    ensures TryDebitSpec(s, accountId, orderId, amount, conflicts, now).1.committed == WithBalanceRow(s.committed, accountId)
  {
    GetBalanceOnCleanStore(s, accountId);
    var gs := GetBalanceSpec(s, accountId);
    var s2 := StageLedgerWrite(gs.1, gs.0.value, accountId, Some(orderId), -amount, now);
    var t := StampVersions(s2.committed, s2.pending);
    assert t.balances[accountId].balance == BalanceOf(s.committed, accountId) - amount;
    assert !Constraints(t);
    assert Save(s2, false).0 == Rejected;
    TryDebitFromStep(s, accountId, orderId, amount, conflicts, now, 0);
  }

  /** What TryDebitAsync's loop from `attempt` on promises on a store with nothing staged. */
  predicate DebitPromise(s: PaymentsCtx, accountId: Guid, orderId: Guid, amount: Cents, conflicts: seq<bool>, now: Instant,
                         attempt: nat, r: Outcome<DebitResult>, s': PaymentsCtx)
  {
    var debited := TransactionForOrder(s.committed, orderId).Some?;
    var funded := BalanceOf(s.committed, accountId) >= amount;
    && r.Ok? && Clean(s') && OtherTablesKept(s.committed, s'.committed)
    && (debited ==> r.value == DebitResult(true, None) && s' == s)
    && (!debited && !funded ==>
          r.value == DebitResult(false, Some(InsufficientFunds)) && s'.committed == WithBalanceRow(s.committed, accountId))
    && (!debited && funded ==>
          && (r.value == DebitResult(false, Some(DebitExhausted)) <==> amount != 0 && AllConflict(conflicts, attempt))
          && (r.value == DebitResult(false, Some(DebitExhausted)) ==> s'.committed == WithBalanceRow(s.committed, accountId))
          && (r.value != DebitResult(false, Some(DebitExhausted)) ==>
                && r.value == DebitResult(true, None) && accountId in s'.committed.balances
                && s'.committed.balances == s.committed.balances[accountId := s'.committed.balances[accountId]]
                && s'.committed.balances[accountId].balance == BalanceOf(s.committed, accountId) - amount
                && AppendedOne(s.committed.transactions, s'.committed.transactions, accountId, Some(orderId), -amount, now)))
  }

  /** A debit attempt that ends the loop: the order was already debited, funds are short, or the save commits. */
  lemma DebitAttemptFinishes(s: PaymentsCtx, accountId: Guid, orderId: Guid, amount: Cents, conflicts: seq<bool>,
                             now: Instant, attempt: nat)
    requires Wf(s) && Clean(s) && attempt < MaxRetry
    requires MoneyFits(amount) && MoneyFits(BalanceOf(s.committed, accountId) - amount)
    requires !(ConflictAt(conflicts, attempt) && amount != 0
               && TransactionForOrder(s.committed, orderId).None? && BalanceOf(s.committed, accountId) >= amount)
    ensures Wf(TryDebitFrom(s, accountId, orderId, amount, conflicts, now, attempt).1)
    ensures DebitPromise(s, accountId, orderId, amount, conflicts, now, attempt,
                         TryDebitFrom(s, accountId, orderId, amount, conflicts, now, attempt).0,
                         TryDebitFrom(s, accountId, orderId, amount, conflicts, now, attempt).1)
  {
    TryDebitFromStep(s, accountId, orderId, amount, conflicts, now, attempt);
    if TransactionForOrder(s.committed, orderId).None? {
      if BalanceOf(s.committed, accountId) >= amount {
        DebitAttemptCommits(s, accountId, orderId, amount, conflicts, now, attempt);
      } else {
        GetBalanceOnCleanStore(s, accountId);
      }
    }
  }

  /** The save of a funded debit on the row just read, meeting no conflict, commits the debit. */
  lemma DebitAfterReadCommits(s1: PaymentsCtx, b: AccountBalance, accountId: Guid, orderId: Guid, amount: Cents,
                              conflict: bool, now: Instant)
    requires Wf(s1) && Clean(s1) && accountId in s1.committed.balances && b == s1.committed.balances[accountId]
    requires MoneyFits(amount) && MoneyFits(b.balance - amount) && b.balance >= amount
    requires TransactionForOrder(s1.committed, orderId).None? && !(conflict && amount != 0)
    ensures var a := DebitAfterRead(Ok(b), s1, accountId, orderId, amount, conflict, now);
      && a.Done? && a.result == Ok(DebitResult(true, None)) && Wf(a.state) && Clean(a.state)
      && OtherTablesKept(s1.committed, a.state.committed) && accountId in a.state.committed.balances
      && a.state.committed.balances == s1.committed.balances[accountId := a.state.committed.balances[accountId]]
      && a.state.committed.balances[accountId].balance == b.balance - amount
      && AppendedOne(s1.committed.transactions, a.state.committed.transactions, accountId, Some(orderId), -amount, now)
  {
    var oid, d := Some(orderId), -amount;
    LedgerWriteCommits(s1, b, accountId, oid, d, now, conflict);
    var saved := Save(StageLedgerWrite(s1, b, accountId, oid, d, now), conflict);
    assert saved.0 == if conflict && d != 0 then Conflict else Saved;
    assert saved.0 == Saved;
    assert DebitAfterRead(Ok(b), s1, accountId, orderId, amount, conflict, now) == Done(Ok(DebitResult(true, None)), saved.1);
  }

  /** A debit attempt that reaches its save and meets no conflict commits the debit. */
  lemma DebitAttemptCommits(s: PaymentsCtx, accountId: Guid, orderId: Guid, amount: Cents, conflicts: seq<bool>,
                            now: Instant, attempt: nat)
    requires Wf(s) && Clean(s) && attempt < MaxRetry
    requires MoneyFits(amount) && MoneyFits(BalanceOf(s.committed, accountId) - amount)
    requires TransactionForOrder(s.committed, orderId).None? && BalanceOf(s.committed, accountId) >= amount
    requires !(ConflictAt(conflicts, attempt) && amount != 0)
    ensures var a := TryDebitAttempt(s, accountId, orderId, amount, ConflictAt(conflicts, attempt), now);
      && a.Done? && a.result == Ok(DebitResult(true, None)) && Wf(a.state) && Clean(a.state)
      && OtherTablesKept(s.committed, a.state.committed) && accountId in a.state.committed.balances
      && a.state.committed.balances == s.committed.balances[accountId := a.state.committed.balances[accountId]]
      && a.state.committed.balances[accountId].balance == BalanceOf(s.committed, accountId) - amount
      && AppendedOne(s.committed.transactions, a.state.committed.transactions, accountId, Some(orderId), -amount, now)
    ensures !AllConflict(conflicts, attempt) || amount == 0
  {
    var c := ConflictAt(conflicts, attempt);
    GetBalanceOnCleanStore(s, accountId);
    var gs := GetBalanceSpec(s, accountId);
    var s1 := gs.1;
    assert s1.committed.transactions == s.committed.transactions;
    DebitAfterReadCommits(s1, gs.0.value, accountId, orderId, amount, c, now);
    var s2 := DebitAfterRead(gs.0, s1, accountId, orderId, amount, c, now).state;
    assert s2.committed.balances == s.committed.balances[accountId := s2.committed.balances[accountId]];
  }

  /** A debit attempt whose save meets a conflict leaves a cleared tracker and the store as the read left it. */
  lemma DebitAttemptConflicts(s: PaymentsCtx, accountId: Guid, orderId: Guid, amount: Cents, conflicts: seq<bool>,
                              now: Instant, attempt: nat)
    requires Wf(s) && Clean(s) && attempt < MaxRetry
    requires MoneyFits(amount) && MoneyFits(BalanceOf(s.committed, accountId) - amount)
    requires ConflictAt(conflicts, attempt) && amount != 0
    requires TransactionForOrder(s.committed, orderId).None? && BalanceOf(s.committed, accountId) >= amount
    ensures var a := TryDebitAttempt(s, accountId, orderId, amount, ConflictAt(conflicts, attempt), now);
      a.Retry? && Wf(a.state) && Clean(a.state) && a.state.committed == WithBalanceRow(s.committed, accountId)
  {
    GetBalanceOnCleanStore(s, accountId);
    var gs := GetBalanceSpec(s, accountId);
    LedgerWriteCommits(gs.1, gs.0.value, accountId, Some(orderId), -amount, now, true);
  }

  /** What the debit loop promises from the next attempt on carries over to this attempt once it has conflicted. */
  lemma DebitPromiseAfterConflict(s: PaymentsCtx, s3: PaymentsCtx, accountId: Guid, orderId: Guid, amount: Cents,
                                  conflicts: seq<bool>, now: Instant, attempt: nat, r: Outcome<DebitResult>, s': PaymentsCtx)
    requires s3.committed == WithBalanceRow(s.committed, accountId)
    requires ConflictAt(conflicts, attempt) && amount != 0 && attempt < MaxRetry
    requires TransactionForOrder(s.committed, orderId).None? && BalanceOf(s.committed, accountId) >= amount
    requires DebitPromise(s3, accountId, orderId, amount, conflicts, now, attempt + 1, r, s')
    ensures DebitPromise(s, accountId, orderId, amount, conflicts, now, attempt, r, s')
  {
    assert BalanceOf(s3.committed, accountId) == BalanceOf(s.committed, accountId);
    assert WithBalanceRow(s3.committed, accountId) == WithBalanceRow(s.committed, accountId);
    assert TransactionForOrder(s3.committed, orderId) == TransactionForOrder(s.committed, orderId);
    if r.value == DebitResult(true, None) {
      assert s'.committed.balances == s.committed.balances[accountId := s'.committed.balances[accountId]];
    }
  }

  /**
   * TryDebitAsync's loop on a store with nothing staged, given that the amount
   * and the new balance fit numeric(18,2). It never throws. An order that
   * already has a ledger row, on whatever account, gives (true, null) and
   * changes nothing; short funds give (false, "Insufficient funds") at once;
   * otherwise it gives (false, "Failed to debit after retries") exactly when
   * every remaining attempt meets a conflict, and else debits exactly once.
   */
  lemma {:induction false} TryDebitFromClean(s: PaymentsCtx, accountId: Guid, orderId: Guid, amount: Cents,
                                             conflicts: seq<bool>, now: Instant, attempt: nat)
    requires Wf(s) && Clean(s) && attempt < MaxRetry
    requires MoneyFits(amount) && MoneyFits(BalanceOf(s.committed, accountId) - amount)
    ensures Wf(TryDebitFrom(s, accountId, orderId, amount, conflicts, now, attempt).1)
    ensures DebitPromise(s, accountId, orderId, amount, conflicts, now, attempt,
                         TryDebitFrom(s, accountId, orderId, amount, conflicts, now, attempt).0,
                         TryDebitFrom(s, accountId, orderId, amount, conflicts, now, attempt).1)
    decreases MaxRetry - attempt
  {
    if ConflictAt(conflicts, attempt) && amount != 0
       && TransactionForOrder(s.committed, orderId).None? && BalanceOf(s.committed, accountId) >= amount
    {
      DebitAttemptConflicts(s, accountId, orderId, amount, conflicts, now, attempt);
      var s3 := TryDebitAttempt(s, accountId, orderId, amount, ConflictAt(conflicts, attempt), now).state;
      TryDebitFromStep(s, accountId, orderId, amount, conflicts, now, attempt);
      var result := TryDebitFrom(s3, accountId, orderId, amount, conflicts, now, attempt + 1);
      if attempt + 1 < MaxRetry {
        TryDebitFromClean(s3, accountId, orderId, amount, conflicts, now, attempt + 1);
      } else {
        assert result == (Ok(DebitResult(false, Some(DebitExhausted))), s3);
      }
      DebitPromiseAfterConflict(s, s3, accountId, orderId, amount, conflicts, now, attempt, result.0, result.1);
    } else {
      DebitAttemptFinishes(s, accountId, orderId, amount, conflicts, now, attempt);
    }
  }

  /** TryDebitAsync from its first attempt: the promise above, with "every remaining attempt" being all three. */
  lemma TryDebitOutcome(s: PaymentsCtx, accountId: Guid, orderId: Guid, amount: Cents, conflicts: seq<bool>, now: Instant)
    requires Wf(s) && Clean(s)
    requires MoneyFits(amount) && MoneyFits(BalanceOf(s.committed, accountId) - amount)
    ensures Wf(TryDebitSpec(s, accountId, orderId, amount, conflicts, now).1)
    ensures DebitPromise(s, accountId, orderId, amount, conflicts, now, 0,
                         TryDebitSpec(s, accountId, orderId, amount, conflicts, now).0,
                         TryDebitSpec(s, accountId, orderId, amount, conflicts, now).1)
    ensures AllConflict(conflicts, 0) <==> ConflictAt(conflicts, 0) && ConflictAt(conflicts, 1) && ConflictAt(conflicts, 2)
  {
    TryDebitFromClean(s, accountId, orderId, amount, conflicts, now, 0);
  }

  /**
   * A debit that reports success leaves a ledger row for the order, so any
   * later debit for the same order, on any account and for any amount,
   * returns (true, null) and changes nothing: an order is paid at most once.
   */
  lemma DebitOncePerOrder(s: PaymentsCtx, accountId: Guid, orderId: Guid, amount: Cents, conflicts: seq<bool>, now: Instant,
                          accountId2: Guid, amount2: Cents, conflicts2: seq<bool>, now2: Instant)
    requires Wf(s) && Clean(s)
    requires MoneyFits(amount) && MoneyFits(BalanceOf(s.committed, accountId) - amount)
    requires TryDebitSpec(s, accountId, orderId, amount, conflicts, now).0 == Ok(DebitResult(true, None))
    ensures var s' := TryDebitSpec(s, accountId, orderId, amount, conflicts, now).1;
      NoVersionedUpdate(s') && TryDebitSpec(s', accountId2, orderId, amount2, conflicts2, now2) == (Ok(DebitResult(true, None)), s')
  {
    TryDebitOutcome(s, accountId, orderId, amount, conflicts, now);
    var s' := TryDebitSpec(s, accountId, orderId, amount, conflicts, now).1;
    if TransactionForOrder(s.committed, orderId).None? {
      var n := |s.committed.transactions|;
      assert s'.committed.transactions[n] in s'.committed.transactions;
    }
    assert TransactionForOrder(s'.committed, orderId).Some?;
    TryDebitFromStep(s', accountId2, orderId, amount2, conflicts2, now2, 0);
  }

  /**
   * DebitWithoutSaveAsync when no account, balance or ledger row is staged:
   * the same two short-circuits as TryDebitAsync, and the balance row it reads
   * may have been created, saved with whatever else was staged.
   */
  lemma DebitWithoutSaveOutcome(s: PaymentsCtx, accountId: Guid, orderId: Guid, amount: Cents, now: Instant)
    requires LedgerSettled(s)
    ensures var (r, s') := DebitWithoutSaveSpec(s, accountId, orderId, amount, now);
      var debited := TransactionForOrder(s.committed, orderId).Some?;
      var funded := BalanceOf(s.committed, accountId) >= amount;
      && Wf(s') && s'.epoch == s.epoch
      && (debited ==> r == Ok(DebitResult(true, None)) && s' == s)
      && (!debited ==>
            && s'.committed.balances == WithBalanceRow(s.committed, accountId).balances
            && s'.committed.transactions == s.committed.transactions
            && s'.committed.accounts == s.committed.accounts && s'.pending.accounts == s.pending.accounts
            && s'.pending.inbox == s.pending.inbox && s'.pending.outbox == s.pending.outbox)
      && (!debited && !funded ==> r == Ok(DebitResult(false, Some(InsufficientFunds))) && LedgerSettled(s'))
      && (!debited && funded ==> r == Ok(DebitResult(true, None)))
  {
    if TransactionForOrder(s.committed, orderId).None? {
      GetBalanceOnSettledStore(s, accountId);
      var gs := GetBalanceSpec(s, accountId);
      if BalanceOf(s.committed, accountId) >= amount {
        LedgerWriteStaged(gs.1, gs.0.value, accountId, Some(orderId), -amount, now);
      }
    }
  }

  /**
   * DebitWithoutSaveAsync past both short-circuits: the tracker holds the
   * balance lowered by the amount and one ledger row for the order, and the
   * staged tables are acceptable to the store when the amounts fit.
   */
  lemma DebitWithoutSaveStages(s: PaymentsCtx, accountId: Guid, orderId: Guid, amount: Cents, now: Instant)
    requires LedgerSettled(s)
    requires TransactionForOrder(s.committed, orderId).None? && BalanceOf(s.committed, accountId) >= amount
    ensures var s' := DebitWithoutSaveSpec(s, accountId, orderId, amount, now).1;
      && accountId in s'.committed.balances
      && s'.pending.balances == s'.committed.balances[accountId := s'.pending.balances[accountId]]
      && s'.pending.balances[accountId]
         == s'.committed.balances[accountId].(balance := BalanceOf(s.committed, accountId) - amount)
      && AppendedOne(s.committed.transactions, s'.pending.transactions, accountId, Some(orderId), -amount, now)
      && (MoneyFits(amount) && MoneyFits(BalanceOf(s.committed, accountId) - amount) ==>
            Constraints(StampVersions(s'.committed, s'.pending)))
  {
    GetBalanceOnSettledStore(s, accountId);
    var gs := GetBalanceSpec(s, accountId);
    assert TransactionForOrder(gs.1.committed, orderId) == TransactionForOrder(s.committed, orderId);
    var oid, d := Some(orderId), -amount;
    LedgerWriteStaged(gs.1, gs.0.value, accountId, oid, d, now);
    assert DebitWithoutSaveSpec(s, accountId, orderId, amount, now).1 == StageLedgerWrite(gs.1, gs.0.value, accountId, oid, d, now);
  }
}

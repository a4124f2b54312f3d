/**
 * PaymentsDbContext as a unit of work: the rows in the database, the change
 * tracker's staged view of them, and SaveChanges / ChangeTracker.Clear.
 *
 * Queries read the committed rows. Adds and edits of tracked entities go to
 * `pending`, which is what the next SaveChanges writes. Clear drops every
 * staged change and detaches every entity: an entity handle remembers the
 * tracker epoch it was attached in, and an edit made through a handle from an
 * earlier epoch reaches no tracker and is never saved.
 */
module PaymentsData {
  import opened Entities
  import opened PaymentsSchema
  import OutboxStore

  /** The abstract value of a PaymentsDb: see the class below. */
  datatype PaymentsCtx = PaymentsCtx(
    committed: PaymentsTables,
    pending: PaymentsTables,
    epoch: nat,
    nextId: Guid,
    saves: nat)

  /** A reference to a tracked entity: its key and the tracker epoch it was attached in. */
  datatype Handle = Handle(id: Guid, epoch: nat)

  /** Every generated Id in the tables is below n, so n and above are fresh. */
  ghost predicate FreshFrom(t: PaymentsTables, n: Guid)
  {
    && (forall a | a in t.accounts :: a.id < n)
    && (forall x | x in t.transactions :: x.id < n)
    && (forall m | m in t.inbox :: m.id < n)
    && (forall m | m in t.outbox :: m.id < n)
  }

  /** The database satisfies its constraints and the id counter is ahead of every stored or staged Id. */
  ghost predicate Wf(s: PaymentsCtx)
  {
    Constraints(s.committed) && FreshFrom(s.committed, s.nextId) && FreshFrom(s.pending, s.nextId)
  }

  /** A unit of work with nothing staged. */
  predicate Clean(s: PaymentsCtx)
  {
    s.pending == s.committed
  }

  const InitialCtx: PaymentsCtx := PaymentsCtx(EmptyTables, EmptyTables, 0, 0, 0)

  /** Guid.NewGuid: the next Id of the counter. */
  function NewId(s: PaymentsCtx): (r: (Guid, PaymentsCtx))
    ensures r.1.nextId == r.0 + 1
    ensures Wf(s) ==> Wf(r.1)
  {
    (s.nextId, s.(nextId := s.nextId + 1))
  }

  /**
   * SaveChangesAsync: commits the staged tables, or throws on a version
   * conflict or a refused constraint and leaves database and tracker as they
   * were. Each call counts as one save.
   */
  function Save(s: PaymentsCtx, conflict: bool): (r: (SaveResult, PaymentsCtx))
    ensures r.1.saves == s.saves + 1 && r.1.epoch == s.epoch && r.1.nextId == s.nextId
    ensures r.0 == Conflict <==> conflict && UpdatesVersionedRow(s.committed, s.pending)
    ensures r.0 == Saved ==> Clean(r.1) && Constraints(r.1.committed) && r.1.committed == StampVersions(s.committed, s.pending)
    ensures r.0 != Saved ==> r.1.committed == s.committed && r.1.pending == s.pending
    ensures Wf(s) ==> Wf(r.1)
  {
    var s' := s.(saves := s.saves + 1);
    match Commit(s.committed, s.pending, conflict)
    case Committed(t) => (Saved, s'.(committed := t, pending := t))
    case VersionConflict => (Conflict, s')
    case ConstraintViolation => (Rejected, s')
  }

  /** ChangeTracker.Clear: forgets every staged change and detaches every entity. */
  function Clear(s: PaymentsCtx): (r: PaymentsCtx)
    ensures Clean(r) && r.committed == s.committed && r.epoch == s.epoch + 1
    ensures Wf(s) ==> Wf(r)
  {
    s.(pending := s.committed, epoch := s.epoch + 1)
  }

  /**
   * Disposing a database transaction that was not committed: the database is
   * back at the snapshot taken when the transaction began; the tracker is not
   * told.
   */
  function Rollback(s: PaymentsCtx, snapshot: PaymentsTables): PaymentsCtx
  {
    s.(committed := snapshot)
  }

  /** The handle still refers to an entity the tracker follows. */
  predicate Attached(s: PaymentsCtx, h: Handle)
  {
    h.epoch == s.epoch
  }

  /** Writes `m` over the inbox row with the same Id. */
  function UpdateInboxRow(rows: seq<InboxMessage>, m: InboxMessage): (r: seq<InboxMessage>)
    ensures |r| == |rows|
    ensures forall i | 0 <= i < |rows| :: r[i] == if rows[i].id == m.id then m else rows[i]
  {
    seq(|rows|, i requires 0 <= i < |rows| => if rows[i].id == m.id then m else rows[i])
  }

  /**
   * `inbox.ProcessedAtUtc = now` on the entity behind h: staged when the entity
   * is still tracked, lost when the tracker was cleared since it was attached.
   */
  function SetInboxProcessed(s: PaymentsCtx, h: Handle, row: InboxMessage, now: Instant): (r: PaymentsCtx)
    ensures !Attached(s, h) ==> r == s
    ensures r.committed == s.committed && r.epoch == s.epoch && r.nextId == s.nextId && r.saves == s.saves
  {
    if Attached(s, h) then
      s.(pending := s.pending.(inbox := UpdateInboxRow(s.pending.inbox, row.(processedAt := Some(now)))))
    else s
  }

  /** DbSet.Add on each table: the row is staged for the next save; queries do not see it yet. */
  function StageAccount(s: PaymentsCtx, a: Account): PaymentsCtx
  {
    s.(pending := s.pending.(accounts := s.pending.accounts + [a]))
  }

  function StageBalance(s: PaymentsCtx, b: AccountBalance): PaymentsCtx
  {
    s.(pending := s.pending.(balances := s.pending.balances[b.accountId := b]))
  }

  function StageTransaction(s: PaymentsCtx, x: AccountTransaction): PaymentsCtx
  {
    s.(pending := s.pending.(transactions := s.pending.transactions + [x]))
  }

  function StageInbox(s: PaymentsCtx, m: InboxMessage): PaymentsCtx
  {
    s.(pending := s.pending.(inbox := s.pending.inbox + [m]))
  }

  function StageOutbox(s: PaymentsCtx, m: OutboxMessage): PaymentsCtx
  {
    s.(pending := s.pending.(outbox := s.pending.outbox + [m]))
  }

  /** OutboxRepository.MarkAsProcessedAsync: DbSet.Update stages the marked row over the stored one. */
  function StageOutboxProcessed(s: PaymentsCtx, m: OutboxMessage, now: Instant): PaymentsCtx
  {
    s.(pending := s.pending.(outbox := OutboxStore.UpdateRow(s.pending.outbox, OutboxStore.MarkProcessed(m, now))))
  }

  /** The dispatcher's catch block on a tracked outbox row: the failed attempt is staged over the stored row. */
  function StageOutboxFailure(s: PaymentsCtx, m: OutboxMessage, error: string): PaymentsCtx
  {
    s.(pending := s.pending.(outbox := OutboxStore.UpdateRow(s.pending.outbox, OutboxStore.RecordFailure(m, error))))
  }

  /** The handle of an entity a query or an Add attaches now. */
  function Track(s: PaymentsCtx, id: Guid): (h: Handle)
    ensures Attached(s, h)
  {
    Handle(id, s.epoch)
  }

  /** One PaymentsDbContext; its whole state is State(). */
  class PaymentsDb {
    var committed: PaymentsTables
    var pending: PaymentsTables
    var epoch: nat
    var nextId: Guid
    var saves: nat

    function State(): PaymentsCtx
      reads this
    {
      PaymentsCtx(committed, pending, epoch, nextId, saves)
    }

    constructor ()
      ensures State() == InitialCtx && Wf(State())
    {
      committed, pending := EmptyTables, EmptyTables;
      epoch, nextId, saves := 0, 0, 0;
    }

    method NewGuid() returns (id: Guid)
      modifies this
      ensures (id, State()) == NewId(old(State()))
    {
      id := nextId;
      nextId := nextId + 1;
    }

    method SaveChanges(conflict: bool) returns (r: SaveResult)
      modifies this
      ensures (r, State()) == Save(old(State()), conflict)
    {
      saves := saves + 1;
      match Commit(committed, pending, conflict)
      case Committed(t) =>
        committed, pending := t, t;
        r := Saved;
      case VersionConflict =>
        r := Conflict;
      case ConstraintViolation =>
        r := Rejected;
    }

    method ClearTracker()
      modifies this
      ensures State() == Clear(old(State()))
    {
      pending := committed;
      epoch := epoch + 1;
    }

    method RollbackTo(snapshot: PaymentsTables)
      modifies this
      ensures State() == Rollback(old(State()), snapshot)
    {
      committed := snapshot;
    }

    method AddAccount(a: Account)
      modifies this
      ensures State() == StageAccount(old(State()), a)
    {
      pending := pending.(accounts := pending.accounts + [a]);
    }

    method AddBalance(b: AccountBalance)
      modifies this
      ensures State() == StageBalance(old(State()), b)
    {
      pending := pending.(balances := pending.balances[b.accountId := b]);
    }

    method AddTransaction(x: AccountTransaction)
      modifies this
      ensures State() == StageTransaction(old(State()), x)
    {
      pending := pending.(transactions := pending.transactions + [x]);
    }

    method AddInbox(m: InboxMessage) returns (h: Handle)
      modifies this
      ensures State() == StageInbox(old(State()), m) && h == Track(old(State()), m.id)
    {
      pending := pending.(inbox := pending.inbox + [m]);
      h := Handle(m.id, epoch);
    }

    method AddOutbox(m: OutboxMessage)
      modifies this
      ensures State() == StageOutbox(old(State()), m)
    {
      pending := pending.(outbox := pending.outbox + [m]);
    }

    method MarkOutboxProcessed(m: OutboxMessage, now: Instant)
      modifies this
      ensures State() == StageOutboxProcessed(old(State()), m, now)
    {
      pending := pending.(outbox := OutboxStore.UpdateRow(pending.outbox, OutboxStore.MarkProcessed(m, now)));
    }

    method RecordOutboxFailure(m: OutboxMessage, error: string)
      modifies this
      ensures State() == StageOutboxFailure(old(State()), m, error)
    {
      pending := pending.(outbox := OutboxStore.UpdateRow(pending.outbox, OutboxStore.RecordFailure(m, error)));
    }

    method MarkInboxProcessed(h: Handle, row: InboxMessage, now: Instant)
      modifies this
      ensures State() == SetInboxProcessed(old(State()), h, row, now)
    {
      if h.epoch == epoch {
        pending := pending.(inbox := UpdateInboxRow(pending.inbox, row.(processedAt := Some(now))));
      }
    }
  }
}

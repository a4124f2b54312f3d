/**
 * The Payments store as PaymentsDbContext.OnModelCreating configures it: its
 * tables, the keys and unique indexes the database enforces, the numeric(18,2)
 * money columns, and the row version on balances that turns a lost update into
 * a concurrency conflict. A commit writes the staged tables only if every
 * constraint holds of them.
 */
module PaymentsSchema {
  import opened Entities
  import OutboxStore

  datatype PaymentsTables = PaymentsTables(
    accounts: seq<Account>,
    balances: map<Guid, AccountBalance>,   // keyed by AccountId
    transactions: seq<AccountTransaction>,
    inbox: seq<InboxMessage>,
    outbox: seq<OutboxMessage>)

  const EmptyTables: PaymentsTables := PaymentsTables([], map[], [], [], [])

  /** Account: key Id, unique index on UserId. */
  predicate AccountConstraints(a: seq<Account>)
  {
    forall i, j | 0 <= i < j < |a| :: a[i].id != a[j].id && a[i].userId != a[j].userId
  }

  /** AccountBalance: key AccountId; Balance is numeric(18,2). */
  predicate BalanceConstraints(b: map<Guid, AccountBalance>)
  {
    forall k | k in b :: b[k].accountId == k && MoneyFits(b[k].balance)
  }

  /** AccountTransaction: key Id; unique index on OrderId filtered to non-null; Delta is numeric(18,2). */
  predicate TransactionConstraints(t: seq<AccountTransaction>)
  {
    && (forall i | 0 <= i < |t| :: MoneyFits(t[i].delta))
    && (forall i, j | 0 <= i < j < |t| :: t[i].id != t[j].id)
    && (forall i, j | 0 <= i < j < |t| && t[i].orderId.Some? :: t[i].orderId != t[j].orderId)
  }

  /** InboxMessage: key Id, unique index on MessageId. */
  predicate InboxConstraints(m: seq<InboxMessage>)
  {
    forall i, j | 0 <= i < j < |m| :: m[i].id != m[j].id && m[i].messageId != m[j].messageId
  }

  predicate Constraints(t: PaymentsTables)
  {
    && AccountConstraints(t.accounts)
    && BalanceConstraints(t.balances)
    && TransactionConstraints(t.transactions)
    && InboxConstraints(t.inbox)
    && OutboxStore.OutboxKeys(t.outbox)
  }

  /** The staged tables change the balance row of account k. */
  predicate BalanceChanged(c: PaymentsTables, p: PaymentsTables, k: Guid)
  {
    k in c.balances && k in p.balances && c.balances[k] != p.balances[k]
  }

  /** The commit would UPDATE some balance row, the only Payments rows that carry a row version. */
  predicate UpdatesVersionedRow(c: PaymentsTables, p: PaymentsTables)
  {
    exists k | k in c.balances :: BalanceChanged(c, p, k)
  }

  /** t is what committing p writes: p's rows, with only balance versions possibly different. */
  predicate StampedFrom(t: PaymentsTables, p: PaymentsTables)
  {
    && t.accounts == p.accounts && t.transactions == p.transactions
    && t.inbox == p.inbox && t.outbox == p.outbox
    && t.balances.Keys == p.balances.Keys
    && forall k | k in p.balances :: t.balances[k] == p.balances[k].(version := t.balances[k].version)
  }

  /** Every balance row the commit updates gets the next version; all other rows are written as staged. */
  function StampVersions(c: PaymentsTables, p: PaymentsTables): (t: PaymentsTables)
    ensures StampedFrom(t, p)
    ensures forall k | k in p.balances && !BalanceChanged(c, p, k) :: t.balances[k] == p.balances[k]
  {
    p.(balances := map k | k in p.balances ::
         if BalanceChanged(c, p, k) then p.balances[k].(version := c.balances[k].version + 1) else p.balances[k])
  }

  datatype CommitResult = Committed(tables: PaymentsTables) | VersionConflict | ConstraintViolation

  /**
   * SaveChanges against the database: `conflict` says whether another unit of
   * work committed a new version of a row this one updates (so the version the
   * UPDATE expects is stale). Without such an update there is nothing a
   * conflict can hit. Otherwise the staged tables are written, with new
   * versions, if the store's constraints accept them.
   */
  function Commit(c: PaymentsTables, p: PaymentsTables, conflict: bool): (r: CommitResult)
    ensures r.VersionConflict? <==> conflict && UpdatesVersionedRow(c, p)
    ensures r.Committed? ==> Constraints(r.tables)
    ensures r.Committed? ==> r.tables == StampVersions(c, p)
  {
    if conflict && UpdatesVersionedRow(c, p) then VersionConflict
    else
      var t := StampVersions(c, p);
      if Constraints(t) then Committed(t) else ConstraintViolation
  }

  /** With no balance row updated, no version is stamped: the staged tables are written as they are. */
  lemma StampWithoutUpdate(c: PaymentsTables, p: PaymentsTables)
    requires !UpdatesVersionedRow(c, p)
    ensures StampVersions(c, p) == p
  {
    assert StampVersions(c, p).balances == p.balances;
  }

  /** With no balance row updated, a commit writes exactly the staged tables. */
  lemma CommitWithoutUpdateWritesStaged(c: PaymentsTables, p: PaymentsTables, conflict: bool)
    requires !UpdatesVersionedRow(c, p)
    ensures Commit(c, p, conflict) == if Constraints(p) then Committed(p) else ConstraintViolation
  {
    StampWithoutUpdate(c, p);
  }

  /**
   * The version check behind IsRowVersion: an UPDATE is accepted only if the
   * row still has the version the writer read.
   */
  predicate VersionsCurrent(c: PaymentsTables, p: PaymentsTables)
  {
    forall k | k in c.balances && BalanceChanged(c, p, k) :: p.balances[k].version == c.balances[k].version
  }

  /**
   * Of two writers that read the same balance row and both change it, the one
   * that commits first bumps its version, so the other's UPDATE is refused:
   * neither update is lost silently.
   */
  lemma FirstWriterWins(c: PaymentsTables, p1: PaymentsTables, p2: PaymentsTables, k: Guid)
    requires k in c.balances && BalanceChanged(c, p1, k) && BalanceChanged(c, p2, k)
    requires VersionsCurrent(c, p1) && VersionsCurrent(c, p2)
    ensures k in StampVersions(c, p1).balances
    ensures !VersionsCurrent(StampVersions(c, p1), p2)
  {
    var t := StampVersions(c, p1);
    assert t.balances[k].version == c.balances[k].version + 1;
    assert p2.balances[k].version == c.balances[k].version;
    assert BalanceChanged(t, p2, k);
  }

  /** How many ledger rows carry order o. */
  function CountForOrder(t: seq<AccountTransaction>, o: Guid): nat
  {
    if t == [] then 0 else (if t[0].orderId == Some(o) then 1 else 0) + CountForOrder(t[1..], o)
  }

  /** The filtered unique index on OrderId: at most one ledger row per order. */
  lemma {:induction false} AtMostOneTransactionPerOrder(t: seq<AccountTransaction>, o: Guid)
    requires TransactionConstraints(t)
    ensures CountForOrder(t, o) <= 1
    ensures CountForOrder(t, o) == 0 <==> forall x :: x in t ==> x.orderId != Some(o)
  {
    if t != [] {
      assert TransactionConstraints(t[1..]);
      AtMostOneTransactionPerOrder(t[1..], o);
      if t[0].orderId == Some(o) {
        forall x | x in t[1..] ensures x.orderId != Some(o) {
          var j :| 0 <= j < |t[1..]| && t[1..][j] == x;
          assert t[j + 1] == x;
        }
      }
    }
  }

  /** The unique index on UserId: two accounts of one user are the same account. */
  lemma OneAccountPerUser(a: seq<Account>, x: Account, y: Account)
    requires AccountConstraints(a) && x in a && y in a && x.userId == y.userId
    ensures x == y
  {
    var i :| 0 <= i < |a| && a[i] == x;
    var j :| 0 <= j < |a| && a[j] == y;
    assert !(i < j) && !(j < i);
  }
}

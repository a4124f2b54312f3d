/**
 * AccountService of the Payments service: per-user account creation, and the
 * balance reads and top-up of an account looked up by Id or by user, each
 * answered as (AccountId, UserId, Balance) or null for an unknown account.
 */
module AccountService {
  import opened Entities
  import opened PaymentsSchema
  import opened PaymentsData
  import opened PaymentsRepositories
  import opened Ledger

  /** BalanceResponse(AccountId, UserId, Balance). */
  datatype BalanceResponse = BalanceResponse(accountId: Guid, userId: Guid, balance: Cents)

  /**
   * CreateAsync: the user's account if there is one; otherwise a new account
   * with a fresh Id, added and saved. Only a row is inserted, so the save
   * cannot meet a version conflict; a store that refuses it makes the call throw.
   */
  function CreateSpec(s: PaymentsCtx, userId: Guid, now: Instant): (Outcome<Account>, PaymentsCtx)
  {
    match AccountByUserId(s.committed, userId)
    case Some(existing) => (Ok(existing), s)
    case None =>
      var (id, s1) := NewId(s);
      var account := Account(id, userId, now);
      var (res, s2) := Save(StageAccount(s1, account), false);
      if res == Saved then (Ok(account), s2) else (Threw(StoreRejected), s2)
  }

  /** The response for an account found by the lookup: its balance row, created at zero when absent. */
  function RespondWithBalance(s: PaymentsCtx, found: Option<Account>): (r: (Outcome<Option<BalanceResponse>>, PaymentsCtx))
    requires NoVersionedUpdate(s)
    ensures found.None? ==> r == (Ok(None), s)
    ensures NoVersionedUpdate(r.1)
  {
    match found
    case None => (Ok(None), s)
    case Some(account) =>
      var (g, s1) := GetBalanceSpec(s, account.id);
      if g.Threw? then (Threw(g.fault), s1)
      else (Ok(Some(BalanceResponse(account.id, account.userId, g.value.balance))), s1)
  }

  /** GetBalanceAsync(accountId). */
  function GetBalanceByIdSpec(s: PaymentsCtx, accountId: Guid): (Outcome<Option<BalanceResponse>>, PaymentsCtx)
    requires NoVersionedUpdate(s)
  {
    RespondWithBalance(s, AccountById(s.committed, accountId))
  }

  /** GetBalanceByUserAsync(userId). */
  function GetBalanceByUserSpec(s: PaymentsCtx, userId: Guid): (Outcome<Option<BalanceResponse>>, PaymentsCtx)
    requires NoVersionedUpdate(s)
  {
    RespondWithBalance(s, AccountByUserId(s.committed, userId))
  }

  /** TopUpAsync(accountId, request): null for an unknown account, else the balance after the top-up. */
  function TopUpByIdSpec(s: PaymentsCtx, accountId: Guid, amount: Cents, conflicts: seq<bool>, now: Instant)
    : (Outcome<Option<BalanceResponse>>, PaymentsCtx)
    requires NoVersionedUpdate(s)
  {
    match AccountById(s.committed, accountId)
    case None => (Ok(None), s)
    case Some(account) =>
      var (b, s1) := TopUpSpec(s, account.id, amount, conflicts, now);
      if b.Threw? then (Threw(b.fault), s1)
      else (Ok(Some(BalanceResponse(account.id, account.userId, b.value.balance))), s1)
  }

  method Create(db: PaymentsDb, userId: Guid, now: Instant) returns (r: Outcome<Account>)
    modifies db
    ensures (r, db.State()) == CreateSpec(old(db.State()), userId, now)
  {
    var existing := AccountByUserId(db.committed, userId);
    if existing.Some? {
      return Ok(existing.value);
    }
    var id := db.NewGuid();
    var account := Account(id, userId, now);
    db.AddAccount(account);
    var res := db.SaveChanges(false);
    r := if res == Saved then Ok(account) else Threw(StoreRejected);
  }

  method Respond(db: PaymentsDb, found: Option<Account>) returns (r: Outcome<Option<BalanceResponse>>)
    requires NoVersionedUpdate(db.State())
    modifies db
    ensures (r, db.State()) == RespondWithBalance(old(db.State()), found)
  {
    if found.None? {
      return Ok(None);
    }
    var g := GetBalance(db, found.value.id);
    if g.Threw? {
      return Threw(g.fault);
    }
    r := Ok(Some(BalanceResponse(found.value.id, found.value.userId, g.value.balance)));
  }

  method GetBalanceById(db: PaymentsDb, accountId: Guid) returns (r: Outcome<Option<BalanceResponse>>)
    requires NoVersionedUpdate(db.State())
    modifies db
    ensures (r, db.State()) == GetBalanceByIdSpec(old(db.State()), accountId)
  {
    r := Respond(db, AccountById(db.committed, accountId));
  }

  method GetBalanceByUser(db: PaymentsDb, userId: Guid) returns (r: Outcome<Option<BalanceResponse>>)
    requires NoVersionedUpdate(db.State())
    modifies db
    ensures (r, db.State()) == GetBalanceByUserSpec(old(db.State()), userId)
  {
    r := Respond(db, AccountByUserId(db.committed, userId));
  }

  method TopUpById(db: PaymentsDb, accountId: Guid, amount: Cents, conflicts: seq<bool>, now: Instant)
    returns (r: Outcome<Option<BalanceResponse>>)
    requires NoVersionedUpdate(db.State())
    modifies db
    ensures (r, db.State()) == TopUpByIdSpec(old(db.State()), accountId, amount, conflicts, now)
  {
    var account := AccountById(db.committed, accountId);
    if account.None? {
      return Ok(None);
    }
    var b := TopUp(db, account.value.id, amount, conflicts, now);
    if b.Threw? {
      return Threw(b.fault);
    }
    r := Ok(Some(BalanceResponse(account.value.id, account.value.userId, b.value.balance)));
  }
}

/** What AccountService promises, stated over its specifications. */
module AccountServiceFacts {
  import opened Entities
  import opened PaymentsSchema
  import opened PaymentsData
  import opened PaymentsRepositories
  import opened Ledger
  import opened LedgerFacts
  import opened AccountService

  /**
   * CreateAsync on a store with nothing staged: a user who has an account gets
   * it back and nothing changes; otherwise exactly one account, with a fresh Id
   * and that user, is appended and is from then on the user's account.
   */
  lemma CreateOutcome(s: PaymentsCtx, userId: Guid, now: Instant)
    requires Wf(s) && Clean(s)
    ensures var (r, s') := CreateSpec(s, userId, now);
      && r.Ok? && r.value.userId == userId && Wf(s') && Clean(s')
      && AccountByUserId(s'.committed, userId) == Some(r.value)
      && (AccountByUserId(s.committed, userId).Some? ==> r == Ok(AccountByUserId(s.committed, userId).value) && s' == s)
      && (AccountByUserId(s.committed, userId).None? ==>
            && r.value.id == s.nextId && r.value.createdAt == now
            && s'.committed == s.committed.(accounts := s.committed.accounts + [r.value]))
  {
    if AccountByUserId(s.committed, userId).None? {
      var (id, s1) := NewId(s);
      var account := Account(id, userId, now);
      SavedAccountIsTheUsersAccount(s1, account, false);
    }
  }

  /** CreateAsync is idempotent per user: a second call returns the same account and adds no row. */
  lemma CreateIsIdempotent(s: PaymentsCtx, userId: Guid, now: Instant, later: Instant)
    requires Wf(s) && Clean(s)
    ensures var (r, s') := CreateSpec(s, userId, now);
      CreateSpec(s', userId, later) == (r, s')
  {
    CreateOutcome(s, userId, now);
  }

  /**
   * GetBalanceAsync and GetBalanceByUserAsync, once the lookup is done: null
   * for no account, else the account's Id and UserId with its stored balance,
   * the balance row having been created at zero if it was missing.
   */
  lemma RespondOutcome(s: PaymentsCtx, found: Option<Account>)
    requires Wf(s) && Clean(s)
    ensures var (r, s') := RespondWithBalance(s, found);
      && r.Ok? && Wf(s') && Clean(s')
      && (found.None? <==> r.value.None?)
      && (found.Some? ==>
            && r.value.value == BalanceResponse(found.value.id, found.value.userId, BalanceOf(s.committed, found.value.id))
            && s'.committed == WithBalanceRow(s.committed, found.value.id))
  {
    if found.Some? {
      GetBalanceOnCleanStore(s, found.value.id);
    }
  }

  /** GetBalanceAsync(accountId): null exactly for an unknown Id; otherwise that account's balance. */
  lemma GetBalanceByIdOutcome(s: PaymentsCtx, accountId: Guid)
    requires Wf(s) && Clean(s)
    ensures var (r, s') := GetBalanceByIdSpec(s, accountId);
      && r.Ok? && Wf(s') && Clean(s')
      && (r.value.None? <==> forall a :: a in s.committed.accounts ==> a.id != accountId)
      && (r.value.Some? ==> r.value.value.accountId == accountId
                            && r.value.value.balance == BalanceOf(s.committed, accountId)
                            && exists a :: a in s.committed.accounts && a.id == accountId && a.userId == r.value.value.userId)
  {
    RespondOutcome(s, AccountById(s.committed, accountId));
  }

  /** GetBalanceByUserAsync(userId): null exactly when the user has no account; otherwise that account's balance. */
  lemma GetBalanceByUserOutcome(s: PaymentsCtx, userId: Guid)
    requires Wf(s) && Clean(s)
    ensures var (r, s') := GetBalanceByUserSpec(s, userId);
      && r.Ok? && Wf(s') && Clean(s')
      && (r.value.None? <==> forall a :: a in s.committed.accounts ==> a.userId != userId)
      && (r.value.Some? ==> r.value.value.userId == userId
                            && r.value.value.balance == BalanceOf(s.committed, r.value.value.accountId)
                            && AccountByUserId(s.committed, userId).value.id == r.value.value.accountId)
  {
    RespondOutcome(s, AccountByUserId(s.committed, userId));
  }

  /**
   * TopUpAsync(accountId, request): null and no change for an unknown Id;
   * otherwise the top-up of the account, answered with the balance raised by
   * exactly the amount, or the exception of a top-up whose attempts all conflict.
   */
  lemma TopUpByIdOutcome(s: PaymentsCtx, accountId: Guid, amount: Cents, conflicts: seq<bool>, now: Instant)
    requires Wf(s) && Clean(s)
    requires MoneyFits(amount) && MoneyFits(BalanceOf(s.committed, accountId) + amount)
    ensures var (r, s') := TopUpByIdSpec(s, accountId, amount, conflicts, now);
      var known := exists a :: a in s.committed.accounts && a.id == accountId;
      && (!known ==> r == Ok(None) && s' == s)
      && (known ==>
            && (r.Threw? <==> amount != 0 && ConflictAt(conflicts, 0) && ConflictAt(conflicts, 1) && ConflictAt(conflicts, 2))
            && (r.Threw? ==> r.fault == InvalidOperation(TopUpExhausted))
            && (r.Ok? ==> r.value.Some? && r.value.value.accountId == accountId
                          && r.value.value.balance == BalanceOf(s.committed, accountId) + amount))
  {
    var found := AccountById(s.committed, accountId);
    if found.Some? {
      TopUpOutcome(s, found.value.id, amount, conflicts, now);
    }
  }
}

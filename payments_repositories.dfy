/**
 * The Payments repositories' queries: AccountsRepository.GetByUserIdAsync /
 * GetByIdAsync and InboxRepository.GetByMessageIdAsync. They read the stored
 * rows; their AddAsync and SaveChangesAsync are the PaymentsDb staging methods
 * and SaveChanges.
 */
module PaymentsRepositories {
  import opened Entities
  import opened Query
  import opened PaymentsSchema
  import opened PaymentsData
  import OutboxStore

  /** AccountsRepository.GetByUserIdAsync: the account of the user, or null. */
  function AccountByUserId(t: PaymentsTables, userId: Guid): (r: Option<Account>)
    ensures r.Some? ==> r.value in t.accounts && r.value.userId == userId
    ensures r.None? <==> forall a :: a in t.accounts ==> a.userId != userId
  {
    FirstWhere(t.accounts, (a: Account) => a.userId == userId)
  }

  /** AccountsRepository.GetByIdAsync: the account with that Id, or null. */
  function AccountById(t: PaymentsTables, id: Guid): (r: Option<Account>)
    ensures r.Some? ==> r.value in t.accounts && r.value.id == id
    ensures r.None? <==> forall a :: a in t.accounts ==> a.id != id
  {
    FirstWhere(t.accounts, (a: Account) => a.id == id)
  }

  /** InboxRepository.GetByMessageIdAsync: the inbox record of that message, or null. */
  function InboxByMessageId(t: PaymentsTables, messageId: Guid): (r: Option<InboxMessage>)
    ensures r.Some? ==> r.value in t.inbox && r.value.messageId == messageId
    ensures r.None? <==> forall m :: m in t.inbox ==> m.messageId != messageId
  {
    FirstWhere(t.inbox, (m: InboxMessage) => m.messageId == messageId)
  }

  /** With the unique index on UserId, the lookup returns the user's one account, whichever it meets first. */
  lemma AccountByUserIdIsUnambiguous(t: PaymentsTables, a: Account)
    requires Constraints(t) && a in t.accounts
    ensures AccountByUserId(t, a.userId) == Some(a)
  {
    var r := AccountByUserId(t, a.userId);
    OneAccountPerUser(t.accounts, r.value, a);
  }

  /** With the unique index on MessageId, the lookup returns the one record of the message. */
  lemma InboxByMessageIdIsUnambiguous(t: PaymentsTables, m: InboxMessage)
    requires Constraints(t) && m in t.inbox
    ensures InboxByMessageId(t, m.messageId) == Some(m)
  {
    var r := InboxByMessageId(t, m.messageId).value;
    var i :| 0 <= i < |t.inbox| && t.inbox[i] == r;
    var j :| 0 <= j < |t.inbox| && t.inbox[j] == m;
    assert !(i < j) && !(j < i);
  }

  /**
   * InboxRepository.AddAsync only stages: the staged record is not found until
   * SaveChangesAsync, which commits it, and from then on the lookup finds it.
   */
  lemma StagedInboxIsFoundOnlyAfterSave(s: PaymentsCtx, m: InboxMessage, conflict: bool)
    requires Wf(s) && Clean(s) && forall x | x in s.committed.inbox :: x.id != m.id
    requires InboxByMessageId(s.committed, m.messageId).None?
    ensures InboxByMessageId(StageInbox(s, m).committed, m.messageId).None?
    ensures Save(StageInbox(s, m), conflict).0 == Saved
    ensures InboxByMessageId(Save(StageInbox(s, m), conflict).1.committed, m.messageId) == Some(m)
  {
    var p := StageInbox(s, m).pending;
    assert InboxConstraints(p.inbox) by {
      forall i, j | 0 <= i < j < |p.inbox|
        ensures p.inbox[i].id != p.inbox[j].id && p.inbox[i].messageId != p.inbox[j].messageId
      {
        if j == |p.inbox| - 1 {
          assert p.inbox[i] in s.committed.inbox;
        } else {
          assert p.inbox[i] == s.committed.inbox[i] && p.inbox[j] == s.committed.inbox[j];
        }
      }
    }
    CommitWithoutUpdateWritesStaged(s.committed, p, conflict);
    FirstWhereAppend(s.committed.inbox, m, (x: InboxMessage) => x.messageId == m.messageId);
  }

  /**
   * AccountsRepository.AddAsync followed by SaveChangesAsync: an account for a
   * user who has none is committed and is then the user's account.
   */
  lemma SavedAccountIsTheUsersAccount(s: PaymentsCtx, a: Account, conflict: bool)
    requires Wf(s) && Clean(s) && forall x | x in s.committed.accounts :: x.id != a.id
    requires AccountByUserId(s.committed, a.userId).None?
    ensures AccountByUserId(StageAccount(s, a).committed, a.userId).None?
    ensures Save(StageAccount(s, a), conflict).0 == Saved
    ensures AccountByUserId(Save(StageAccount(s, a), conflict).1.committed, a.userId) == Some(a)
  {
    var p := StageAccount(s, a).pending;
    assert AccountConstraints(p.accounts) by {
      forall i, j | 0 <= i < j < |p.accounts|
        ensures p.accounts[i].id != p.accounts[j].id && p.accounts[i].userId != p.accounts[j].userId
      {
        if j == |p.accounts| - 1 {
          assert p.accounts[i] in s.committed.accounts;
        } else {
          assert p.accounts[i] == s.committed.accounts[i] && p.accounts[j] == s.committed.accounts[j];
        }
      }
    }
    CommitWithoutUpdateWritesStaged(s.committed, p, conflict);
    FirstWhereAppend(s.committed.accounts, a, (x: Account) => x.userId == a.userId);
  }

  /**
   * OutboxRepository.AddAsync only stages: the committed outbox is unchanged
   * until SaveChangesAsync, which commits the row, and the unpublished row is
   * then in the backlog the dispatcher fetches from.
   */
  lemma StagedOutboxIsQueuedOnlyAfterSave(s: PaymentsCtx, m: OutboxMessage, conflict: bool)
    requires Wf(s) && Clean(s) && m.id >= s.nextId && OutboxStore.Unprocessed(m)
    ensures StageOutbox(s, m).committed == s.committed
    ensures Save(StageOutbox(s, m), conflict).0 == Saved
    ensures Save(StageOutbox(s, m), conflict).1.committed.outbox == s.committed.outbox + [m]
    ensures m in OutboxStore.Backlog(Save(StageOutbox(s, m), conflict).1.committed.outbox)
  {
    var p := StageOutbox(s, m).pending;
    assert OutboxStore.OutboxKeys(p.outbox) by {
      forall i, j | 0 <= i < j < |p.outbox| ensures p.outbox[i].id != p.outbox[j].id {
        assert p.outbox[i] in s.committed.outbox;
        if j < |p.outbox| - 1 {
          assert p.outbox[j] in s.committed.outbox;
        }
      }
    }
    CommitWithoutUpdateWritesStaged(s.committed, p, conflict);
    WhereKeepsMatchingCopies(p.outbox, OutboxStore.Unprocessed, m);
    assert m in multiset(OutboxStore.Backlog(p.outbox));
  }
}

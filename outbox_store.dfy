/**
 * The outbox table as both services keep it, and the query and row updates of
 * their OutboxRepository classes (the Orders and the Payments copies are the
 * same code): fetch the oldest unpublished rows, mark a row published, and the
 * dispatcher's record of a failed publish.
 */
module OutboxStore {
  import opened Entities
  import opened Query

  /** Rows not yet published: ProcessedAtUtc is null. */
  predicate Unprocessed(m: OutboxMessage)
  {
    m.processedAt.None?
  }

  function CreatedAt(m: OutboxMessage): int
  {
    m.createdAt
  }

  /** Outbox rows are keyed by Id. */
  predicate OutboxKeys(rows: seq<OutboxMessage>)
  {
    forall i, j | 0 <= i < j < |rows| :: rows[i].id != rows[j].id
  }

  /** The unprocessed rows, oldest first: the query before Take. */
  function Backlog(rows: seq<OutboxMessage>): (r: seq<OutboxMessage>)
    ensures multiset(r) == multiset(Where(rows, Unprocessed))
    ensures SortedBy(r, CreatedAt)
  {
    SortBy(Where(rows, Unprocessed), CreatedAt)
  }

  /**
   * GetUnprocessedAsync(take): Where(ProcessedAtUtc == null), OrderBy(CreatedAtUtc), Take(take).
   * At most `take` rows, all unprocessed rows of the table, oldest first, and a
   * prefix of the whole backlog, so exactly `take` of them when that many exist.
   */
  function GetUnprocessed(rows: seq<OutboxMessage>, take: int): (r: seq<OutboxMessage>)
    ensures |r| == if take <= 0 then 0 else if take < |Backlog(rows)| then take else |Backlog(rows)|
    ensures forall m :: m in r ==> m in rows && Unprocessed(m)
    ensures SortedBy(r, CreatedAt)
    ensures r <= Backlog(rows)
  {
    var backlog := Backlog(rows);
    var r := Take(backlog, take);
    assert forall m :: m in r ==> m in backlog;
    assert forall m :: m in backlog ==> m in multiset(Where(rows, Unprocessed));
    r
  }

  /**
   * The fetch returns the oldest rows: an unprocessed row that was left out is
   * no older than any row that was returned.
   */
  lemma {:induction false} FetchLeavesOnlyNewerRows(rows: seq<OutboxMessage>, take: int, m: OutboxMessage)
    requires m in rows && Unprocessed(m)
    requires m !in GetUnprocessed(rows, take)
    ensures forall x :: x in GetUnprocessed(rows, take) ==> x.createdAt <= m.createdAt
  {
    var backlog := Backlog(rows);
    var r := GetUnprocessed(rows, take);
    WhereKeepsMatchingCopies(rows, Unprocessed, m);
    assert m in multiset(backlog);
    var k :| 0 <= k < |backlog| && backlog[k] == m;
    forall x | x in r
      ensures x.createdAt <= m.createdAt
    {
      var i :| 0 <= i < |r| && r[i] == x;
      assert backlog[i] == x;
    }
  }

  /** MarkAsProcessedAsync: sets ProcessedAtUtc and counts the attempt; nothing else. */
  function MarkProcessed(m: OutboxMessage, now: Instant): (r: OutboxMessage)
    ensures !Unprocessed(r) && r.processedAt == Some(now)
    ensures r.attempt == m.attempt + 1
    ensures r == m.(processedAt := r.processedAt, attempt := r.attempt)
  {
    m.(processedAt := Some(now), attempt := m.attempt + 1)
  }

  /** The dispatcher's catch block: counts the attempt and keeps the exception message. */
  function RecordFailure(m: OutboxMessage, error: string): (r: OutboxMessage)
    ensures r.attempt == m.attempt + 1 && r.error == Some(error)
    ensures Unprocessed(r) == Unprocessed(m)
    ensures r == m.(attempt := r.attempt, error := r.error)
  {
    m.(attempt := m.attempt + 1, error := Some(error))
  }

  /** Writes `m` over the row with the same Id, as an UPDATE by key does. */
  function UpdateRow(rows: seq<OutboxMessage>, m: OutboxMessage): (r: seq<OutboxMessage>)
    ensures |r| == |rows|
    ensures forall i | 0 <= i < |rows| :: r[i] == if rows[i].id == m.id then m else rows[i]
  {
    seq(|rows|, i requires 0 <= i < |rows| => if rows[i].id == m.id then m else rows[i])
  }

  lemma UpdateRowKeepsKeys(rows: seq<OutboxMessage>, m: OutboxMessage)
    requires OutboxKeys(rows)
    ensures OutboxKeys(UpdateRow(rows, m))
  {
  }

  /** A row marked processed is never fetched again. */
  lemma {:induction false} MarkedRowIsNotFetchedAgain(rows: seq<OutboxMessage>, m: OutboxMessage, now: Instant, take: int)
    ensures forall x :: x in GetUnprocessed(UpdateRow(rows, MarkProcessed(m, now)), take) ==> x.id != m.id
  {
    var rows' := UpdateRow(rows, MarkProcessed(m, now));
    forall x | x in GetUnprocessed(rows', take)
      ensures x.id != m.id
    {
      var i :| 0 <= i < |rows'| && rows'[i] == x;
    }
  }

  /**
   * A row whose publish failed stays unprocessed, so the next fetch that
   * reaches it returns it again (with its attempt count raised).
   */
  lemma {:induction false} FailedRowStaysInBacklog(rows: seq<OutboxMessage>, m: OutboxMessage, error: string)
    requires m in rows && Unprocessed(m) && OutboxKeys(rows)
    ensures RecordFailure(m, error) in Backlog(UpdateRow(rows, RecordFailure(m, error)))
  {
    var f := RecordFailure(m, error);
    var rows' := UpdateRow(rows, f);
    var i :| 0 <= i < |rows| && rows[i] == m;
    assert rows'[i] == f;
    WhereKeepsMatchingCopies(rows', Unprocessed, f);
    assert f in multiset(Backlog(rows'));
  }
}

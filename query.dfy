/**
 * The LINQ operators the repositories build their queries from:
 * FirstOrDefault, Where, OrderBy / OrderByDescending and Take, over a table
 * held as a sequence in storage order.
 */
module Query {
  import opened Entities

  /** FirstOrDefault(matches): the first row that matches, or null. */
  function FirstWhere<T(!new)>(rows: seq<T>, matches: T -> bool): (r: Option<T>)
    ensures r.Some? ==> r.value in rows && matches(r.value)
    ensures r.None? <==> forall x :: x in rows ==> !matches(x)
  {
    if rows == [] then None
    else if matches(rows[0]) then Some(rows[0])
    else FirstWhere(rows[1..], matches)
  }

  /** A row appended to a table in which nothing matched is the first match, if it matches. */
  lemma {:induction false} FirstWhereAppend<T(!new)>(rows: seq<T>, x: T, matches: T -> bool)
    requires forall y :: y in rows ==> !matches(y)
    ensures FirstWhere(rows + [x], matches) == if matches(x) then Some(x) else None
  {
    if rows != [] {
      assert (rows + [x])[1..] == rows[1..] + [x];
      FirstWhereAppend(rows[1..], x, matches);
    }
  }

  /** Where(matches), keeping storage order. */
  function Where<T(!new)>(rows: seq<T>, matches: T -> bool): (r: seq<T>)
    ensures forall x :: x in r <==> x in rows && matches(x)
    ensures |r| <= |rows|
  {
    if rows == [] then []
    else if matches(rows[0]) then [rows[0]] + Where(rows[1..], matches)
    else Where(rows[1..], matches)
  }

  /** Every row of `rows` that matches occurs in Where(rows, matches) as often as in `rows`. */
  lemma {:induction false} WhereKeepsMatchingCopies<T(!new)>(rows: seq<T>, matches: T -> bool, x: T)
    requires matches(x)
    ensures multiset(Where(rows, matches))[x] == multiset(rows)[x]
  {
    if rows != [] {
      WhereKeepsMatchingCopies(rows[1..], matches, x);
      assert rows == [rows[0]] + rows[1..];
    }
  }

  ghost predicate SortedBy<T>(s: seq<T>, key: T -> int)
  {
    forall i, j :: 0 <= i < j < |s| ==> key(s[i]) <= key(s[j])
  }

  /** Puts x in front of the first element whose key is not smaller, so equal keys keep their order. */
  function InsertBy<T>(x: T, s: seq<T>, key: T -> int): (r: seq<T>)
    ensures multiset(r) == multiset(s) + multiset{x}
    ensures |r| == |s| + 1
    ensures r[0] == x || (s != [] && r[0] == s[0])
    ensures SortedBy(s, key) ==> SortedBy(r, key)
  {
    if s == [] then [x]
    else if key(x) <= key(s[0]) then [x] + s
    else
      var rest := InsertBy(x, s[1..], key);
      assert s == [s[0]] + s[1..];
      [s[0]] + rest
  }

  /**
   * OrderBy(key): an insertion sort. Rows with equal keys keep their storage
   * order; this tie-break is the model's choice, the database fixes none.
   */
  function SortBy<T>(s: seq<T>, key: T -> int): (r: seq<T>)
    ensures multiset(r) == multiset(s)
    ensures |r| == |s|
    ensures SortedBy(r, key)
  {
    if s == [] then []
    else
      assert s == [s[0]] + s[1..];
      InsertBy(s[0], SortBy(s[1..], key), key)
  }

  /** Take(n): the first n rows, or all of them when there are fewer; none for n <= 0. */
  function Take<T>(s: seq<T>, n: int): (r: seq<T>)
    ensures |r| == if n <= 0 then 0 else if n < |s| then n else |s|
    ensures r <= s
  {
    if n <= 0 then [] else if n < |s| then s[..n] else s
  }
}

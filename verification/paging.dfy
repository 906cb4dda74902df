/** Pages of a list. */
module Paging {
  import opened Batches

  function ApplyPagination<T>(rows: seq<T>, offset: nat, limit: nat): seq<T> {
    if offset >= |rows| then []
    else if offset + limit > |rows| then rows[offset..]
    else rows[offset..offset + limit]
  }

  function PageStart(limit: nat, k: nat): nat {
    if k == 0 then 0 else PageStart(limit, k - 1) + limit
  }

  /** What the first k requests return, each asking for the next `limit` rows. */
  function FirstPages<T>(rows: seq<T>, limit: nat, k: nat): seq<T> {
    if k == 0 then [] else FirstPages(rows, limit, k - 1) + ApplyPagination(rows, PageStart(limit, k - 1), limit)
  }

  /** Successive pages are consecutive pieces of the list; enough of them are the whole list. */
  lemma {:induction false} PagesCover<T>(rows: seq<T>, limit: nat, k: nat)
    ensures FirstPages(rows, limit, k) == if PageStart(limit, k) < |rows| then rows[..PageStart(limit, k)] else rows
  {
    if k > 0 {
      PagesCover(rows, limit, k - 1);
      NextPage(rows, PageStart(limit, k - 1), limit);
    }
  }

  lemma NextPage<T>(rows: seq<T>, start: nat, limit: nat)
    ensures (if start < |rows| then rows[..start] else rows) + ApplyPagination(rows, start, limit)
         == if start + limit < |rows| then rows[..start + limit] else rows
  {
    if start < |rows| {
      var end := if start + limit > |rows| then |rows| else start + limit;
      assert rows[..start] + rows[start..end] == rows[..end];
    }
  }

  /** No row is on two pages. */
  lemma PagesDisjoint<T>(rows: seq<T>, key: T -> int, limit: nat, j: nat, k: nat, x: T, y: T)
    requires DistinctValues(rows, key) && j < k
    requires x in ApplyPagination(rows, PageStart(limit, j), limit)
    requires y in ApplyPagination(rows, PageStart(limit, k), limit)
    ensures key(x) != key(y)
  {
    LaterPages(limit, j, k);
    var m := OnPage(rows, PageStart(limit, j), limit, x);
    var n := OnPage(rows, PageStart(limit, k), limit, y);
  }

  lemma {:induction false} LaterPages(limit: nat, j: nat, k: nat)
    requires j < k
    ensures PageStart(limit, j) + limit <= PageStart(limit, k)
  {
    if j < k - 1 {
      LaterPages(limit, j, k - 1);
    }
  }

  lemma OnPage<T>(rows: seq<T>, offset: nat, limit: nat, x: T) returns (m: nat)
    requires x in ApplyPagination(rows, offset, limit)
    ensures offset <= m < offset + limit && m < |rows| && rows[m] == x
  {
    var page := ApplyPagination(rows, offset, limit);
    var i :| 0 <= i < |page| && page[i] == x;
    m := offset + i;
  }
}

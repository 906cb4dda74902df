/** Rebuilding the daily account metrics of a date range: delete and upsert inside a transaction. */
module AccountMetrics {
  import opened Wrappers
  import opened Units
  import opened Tables

  datatype AccountMetric = AccountMetric(revenueCents: int, orders: int, returned: int, cancelled: int)

  datatype RebuildError = InvalidRange | DatabaseError

  /** Rows by seller and day. */
  type MetricTable = map<(int, int), AccountMetric>

  predicate InRange(key: (int, int), seller: int, from: int, until: int) {
    key.0 == seller && from <= key.1 <= until
  }

  /** The table after deleting a seller's rows of a range. */
  function Deleted(table: MetricTable, seller: int, from: int, until: int): MetricTable {
    map key | key in table && !InRange(key, seller, from, until) :: table[key]
  }

  /** The source rows of a range, by day. */
  function SourceRows(source: map<int, AccountMetric>, from: int, until: int): seq<(int, AccountMetric)>
    decreases until - from
  {
    if until < from then []
    else SourceRows(source, from, until - 1) + if until in source then [(until, source[until])] else []
  }

  /** The table a rebuild aims at: in the range, one row per source day; elsewhere, what was there. */
  function Rebuilt(table: MetricTable, source: map<int, AccountMetric>, seller: int, from: int,
                   until: int): MetricTable {
    Deleted(table, seller, from, until)
    + map day | day in source && from <= day <= until :: (seller, day) := source[day]
  }

  /** What a rebuild leaves at each key: the source row inside the range, the old row outside. */
  lemma RebuiltLookup(table: MetricTable, source: map<int, AccountMetric>, seller: int, from: int, until: int,
                      key: (int, int))
    ensures Lookup(Rebuilt(table, source, seller, from, until), key)
         == if InRange(key, seller, from, until) then Lookup(source, key.1) else Lookup(table, key)
  {
    var written := map day | day in source && from <= day <= until :: (seller, day) := source[day];
    if InRange(key, seller, from, until) && key.1 in source {
      assert (seller, key.1) in written;
      assert key == (seller, key.1);
    }
  }

  /** Rebuilding a range again changes nothing. */
  lemma RebuildIdempotent(table: MetricTable, source: map<int, AccountMetric>, seller: int, from: int, until: int)
    ensures Rebuilt(Rebuilt(table, source, seller, from, until), source, seller, from, until)
             == Rebuilt(table, source, seller, from, until)
  {
    var once := Rebuilt(table, source, seller, from, until);
    forall key
      ensures Lookup(Rebuilt(once, source, seller, from, until), key) == Lookup(once, key)
    {
      RebuiltLookup(table, source, seller, from, until, key);
      RebuiltLookup(once, source, seller, from, until, key);
    }
    SameLookups(Rebuilt(once, source, seller, from, until), once);
  }

  /** Rebuilding two ranges that touch or overlap, in either order, is rebuilding their union. */
  lemma RebuildUnion(table: MetricTable, source: map<int, AccountMetric>, seller: int, a: int, b: int, c: int, d: int)
    requires a <= c <= b + 1 && b <= d
    ensures Rebuilt(Rebuilt(table, source, seller, a, b), source, seller, c, d) == Rebuilt(table, source, seller, a, d)
    ensures Rebuilt(Rebuilt(table, source, seller, c, d), source, seller, a, b) == Rebuilt(table, source, seller, a, d)
  {
    var first, second, union :=
      Rebuilt(table, source, seller, a, b), Rebuilt(table, source, seller, c, d), Rebuilt(table, source, seller, a, d);
    forall key
      ensures Lookup(Rebuilt(first, source, seller, c, d), key) == Lookup(union, key)
      ensures Lookup(Rebuilt(second, source, seller, a, b), key) == Lookup(union, key)
    {
      RebuiltLookup(table, source, seller, a, b, key);
      RebuiltLookup(table, source, seller, c, d, key);
      RebuiltLookup(first, source, seller, c, d, key);
      RebuiltLookup(second, source, seller, a, b, key);
      RebuiltLookup(table, source, seller, a, d, key);
    }
    SameLookups(Rebuilt(first, source, seller, c, d), union);
    SameLookups(Rebuilt(second, source, seller, a, b), union);
  }

  /** The database: fixed sources, a table, and an oracle for the outcome of every call. */
  class Database {
    const sellers: set<int>
    const source: int -> map<int, AccountMetric>
    const succeeds: nat -> bool
    var calls: nat
    var table: MetricTable

    ghost predicate AllSucceed(a: nat, b: nat) {
      forall n | a <= n < b :: succeeds(n)
    }

    method Call() returns (ok: bool)
      modifies this`calls
      ensures calls == old(calls) + 1 && ok == succeeds(old(calls))
    {
      ok := succeeds(calls);
      calls := calls + 1;
    }
  }

  lemma {:induction false} SourceRowsSound(source: map<int, AccountMetric>, from: int, until: int)
    ensures forall k | 0 <= k < |SourceRows(source, from, until)| ::
      var row := SourceRows(source, from, until)[k];
      from <= row.0 <= until && row.0 in source && row.1 == source[row.0]
    ensures forall day | from <= day <= until && day in source :: (day, source[day]) in SourceRows(source, from, until)
    decreases until - from
  {
    if from <= until {
      SourceRowsSound(source, from, until - 1);
    }
  }

  function DayKey(seller: int): ((int, AccountMetric)) -> (int, int) {
    (row: (int, AccountMetric)) => (seller, row.0)
  }

  function MetricOf(): ((int, AccountMetric)) -> AccountMetric {
    (row: (int, AccountMetric)) => row.1
  }

  /** Upserting every source row of the range into the emptied range. */
  function WithRows(table: MetricTable, seller: int, rows: seq<(int, AccountMetric)>): MetricTable {
    PutRows(table, rows, DayKey(seller), MetricOf())
  }

  lemma WithRowsLookup(table: MetricTable, source: map<int, AccountMetric>, seller: int,
                       rows: seq<(int, AccountMetric)>, key: (int, int))
    requires forall k | 0 <= k < |rows| :: rows[k].0 in source && rows[k].1 == source[rows[k].0]
    ensures Lookup(WithRows(table, seller, rows), key)
         == if key.0 == seller && exists k :: 0 <= k < |rows| && rows[k].0 == key.1 then Lookup(source, key.1)
            else Lookup(table, key)
  {
    var f := (at: (int, int)) => if at.1 in source then source[at.1] else AccountMetric(0, 0, 0, 0);
    PutRowsLookup(table, rows, DayKey(seller), MetricOf(), f, key);
    hide PutRows;
    if key.0 == seller {
      if k :| 0 <= k < |rows| && rows[k].0 == key.1 {
        assert DayKey(seller)(rows[k]) == key;
      }
      if k :| 0 <= k < |rows| && DayKey(seller)(rows[k]) == key {
        assert rows[k].0 == key.1;
      }
    }
  }

  /** Deleting the range and upserting its source rows gives the table aimed at. */
  lemma DeleteThenUpsert(table: MetricTable, source: map<int, AccountMetric>, seller: int, from: int, until: int)
    ensures WithRows(Deleted(table, seller, from, until), seller, SourceRows(source, from, until))
             == Rebuilt(table, source, seller, from, until)
  {
    var rows := SourceRows(source, from, until);
    SourceRowsSound(source, from, until);
    var built := WithRows(Deleted(table, seller, from, until), seller, rows);
    forall key
      ensures Lookup(built, key) == Lookup(Rebuilt(table, source, seller, from, until), key)
    {
      WithRowsLookup(Deleted(table, seller, from, until), source, seller, rows, key);
      RebuiltLookup(table, source, seller, from, until, key);
      if InRange(key, seller, from, until) && key.1 in source {
        var k :| 0 <= k < |rows| && rows[k] == (key.1, source[key.1]);
      }
    }
    SameLookups(built, Rebuilt(table, source, seller, from, until));
  }

  /** The upsert loop, on the transaction's working copy of the table. */
  method UpsertRows(db: Database, seller: int, table: MetricTable, rows: seq<(int, AccountMetric)>)
      returns (ok: bool, work: MetricTable)
    modifies db`calls
    ensures old(db.calls) <= db.calls && (ok <==> db.AllSucceed(old(db.calls), db.calls))
    ensures ok ==> work == WithRows(table, seller, rows)
  {
    work := table;
    for i := 0 to |rows|
      invariant work == WithRows(table, seller, rows[..i])
      invariant old(db.calls) <= db.calls && db.AllSucceed(old(db.calls), db.calls)
    {
      assert rows[..i + 1][..i] == rows[..i];
      ok := db.Call();
      if !ok {
        return;
      }
      work := work[(seller, rows[i].0) := rows[i].1];
    }
    assert rows[..|rows|] == rows;
    ok := true;
  }

  /** The rebuild, all or nothing: when every call works, the table becomes the one aimed at; on any
      failure it stays as it was. */
  method RebuildForDateRange(db: Database, seller: int, dateFrom: int, dateTo: int)
      returns (r: Result<nat, RebuildError>)
    modifies db
    ensures var from, until := DayOf(dateFrom), DayOf(dateTo);
      && (until < from ==> r == Err(InvalidRange) && db.calls == old(db.calls))
      && (r.Ok? <==> from <= until && seller in db.sellers && db.AllSucceed(old(db.calls), db.calls))
      && (r.Ok? ==> db.table == Rebuilt(old(db.table), db.source(seller), seller, from, until)
                    && r.value == |SourceRows(db.source(seller), from, until)|)
      && (r.Err? ==> db.table == old(db.table))
  {
    hide Rebuilt, SourceRows, Deleted, WithRows, DayOf;
    var from, until := DayOf(dateFrom), DayOf(dateTo);
    if until < from {
      return Err(InvalidRange);
    }
    var ok := db.Call();
    if !ok { return Err(DatabaseError); }
    ok := db.Call();
    if !ok || seller !in db.sellers { return Err(DatabaseError); }
    ok := db.Call();
    if !ok { return Err(DatabaseError); }
    var sources := SourceRows(db.source(seller), from, until);
    ok := db.Call();
    if !ok { return Err(DatabaseError); }
    var work := Deleted(db.table, seller, from, until);
    ok, work := UpsertRows(db, seller, work, sources);
    if !ok { return Err(DatabaseError); }
    ok := db.Call();
    if !ok { return Err(DatabaseError); }
    DeleteThenUpsert(db.table, db.source(seller), seller, from, until);
    db.table := work;
    r := Ok(|sources|);
  }
}

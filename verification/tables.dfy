/** Database tables as maps, compared row by row. */
module Tables {
  import opened Wrappers

  function Lookup<K, V>(m: map<K, V>, key: K): Option<V> {
    if key in m then Some(m[key]) else None
  }

  /** Tables with the same row, or absence of one, at every key are the same table. */
  lemma SameLookups<K(!new), V>(s: map<K, V>, t: map<K, V>)
    requires forall key :: Lookup(s, key) == Lookup(t, key)
    ensures s == t
  {
    assert forall key :: key in s <==> Lookup(s, key).Some?;
    assert forall key :: key in t <==> Lookup(t, key).Some?;
    assert s.Keys == t.Keys;
    forall key | key in s
      ensures s[key] == t[key]
    {
      assert Lookup(s, key) == Lookup(t, key);
    }
  }

  /** The table after writing each row's value at its key, in order. */
  function PutRows<X, K, V>(table: map<K, V>, rows: seq<X>, key: X -> K, value: X -> V): map<K, V> {
    if rows == [] then table
    else
      var last := rows[|rows| - 1];
      PutRows(table, rows[..|rows| - 1], key, value)[key(last) := value(last)]
  }

  lemma PutNoRows<X, K, V>(table: map<K, V>, key: X -> K, value: X -> V)
    ensures PutRows(table, [], key, value) == table
  {
  }

  lemma PutRowsPush<X, K, V>(table: map<K, V>, rows: seq<X>, key: X -> K, value: X -> V, last: X)
    ensures PutRows(table, rows + [last], key, value) == PutRows(table, rows, key, value)[key(last) := value(last)]
  {
    assert (rows + [last])[..|rows|] == rows;
  }

  lemma PutRowsStep<X, K, V>(table: map<K, V>, rows: seq<X>, key: X -> K, value: X -> V, i: nat)
    requires i < |rows|
    ensures PutRows(table, rows[..i + 1], key, value)
             == PutRows(table, rows[..i], key, value)[key(rows[i]) := value(rows[i])]
  {
    assert rows[..i + 1][..i] == rows[..i];
  }

  lemma {:induction false} PutRowsConcat<X, K, V>(table: map<K, V>, a: seq<X>, b: seq<X>, key: X -> K, value: X -> V)
    ensures PutRows(table, a + b, key, value) == PutRows(PutRows(table, a, key, value), b, key, value)
  {
    if b == [] {
      assert a + b == a;
    } else {
      assert (a + b)[..|a + b| - 1] == a + b[..|b| - 1];
      PutRowsConcat(table, a, b[..|b| - 1], key, value);
    }
  }

  /** The last row written at a key is what the table holds there. */
  lemma {:induction false} PutRowsKeepsLast<X, K, V>(table: map<K, V>, rows: seq<X>, key: X -> K, value: X -> V, i: nat)
    requires i < |rows| && forall k | i < k < |rows| :: key(rows[k]) != key(rows[i])
    ensures Lookup(PutRows(table, rows, key, value), key(rows[i])) == Some(value(rows[i]))
  {
    if i == |rows| - 1 {
    } else {
      PutRowsKeepsLast(table, rows[..|rows| - 1], key, value, i);
      assert key(rows[|rows| - 1]) != key(rows[i]);
    }
  }

  /** Writing adds the keys of its rows and no other. */
  lemma {:induction false} PutRowsKeys<X, K, V>(table: map<K, V>, rows: seq<X>, key: X -> K, value: X -> V, at: K)
    ensures at in PutRows(table, rows, key, value) <==> at in table || exists k | 0 <= k < |rows| :: key(rows[k]) == at
  {
    if rows == [] {
    } else {
      var front := rows[..|rows| - 1];
      PutRowsKeys(table, front, key, value, at);
      if k :| 0 <= k < |front| && key(front[k]) == at {
        assert key(rows[k]) == at;
      }
      if k :| 0 <= k < |rows| && key(rows[k]) == at {
        assert k < |front| ==> front[k] == rows[k];
      }
    }
  }

  /** Where the key decides the value, each key written holds its value and every other what was there. */
  lemma {:induction false} PutRowsLookup<X, K, V>(table: map<K, V>, rows: seq<X>,
                                                  key: X -> K, value: X -> V, f: K -> V, at: K)
    requires forall k | 0 <= k < |rows| :: value(rows[k]) == f(key(rows[k]))
    ensures Lookup(PutRows(table, rows, key, value), at)
         == if exists k :: 0 <= k < |rows| && key(rows[k]) == at then Some(f(at)) else Lookup(table, at)
  {
    if rows == [] {
    } else {
      var front := rows[..|rows| - 1];
      PutRowsLookup(table, front, key, value, f, at);
      if k :| 0 <= k < |front| && key(front[k]) == at {
        assert key(rows[k]) == at;
      }
      if k :| 0 <= k < |rows| && key(rows[k]) == at {
        assert k < |front| ==> front[k] == rows[k];
      }
    }
  }
}

/** A table is the sequence of its rows in storage order; `key` extracts a row's primary key.
    The operations here are the ones the data-access layer performs on the `produit` and `lieu`
    tables, stated once for both. */
module Tables {
  import opened Wrappers

  /** The primary-key values present in a table. */
  function Keys<T(==)>(rows: seq<T>, key: T -> int): set<int>
  {
    set x | x in rows :: key(x)
  }

  /** The primary-key constraint: no two rows share a key. */
  ghost predicate DistinctKeys<T>(rows: seq<T>, key: T -> int)
  {
    forall i, j :: 0 <= i < j < |rows| ==> key(rows[i]) != key(rows[j])
  }

  /** Under the primary-key constraint a key identifies at most one row. */
  lemma KeyDeterminesRow<T>(rows: seq<T>, key: T -> int, x: T, y: T)
    requires DistinctKeys(rows, key)
    requires x in rows && y in rows && key(x) == key(y)
    ensures x == y
  {
    var i :| 0 <= i < |rows| && rows[i] == x;
    var j :| 0 <= j < |rows| && rows[j] == y;
    assert !(i < j) && !(j < i);
  }

  /** `query(...).where(key == id).first()`: scans the table in storage order and returns the
      first row carrying `id`, or None when no row carries it. */
  method First<T>(rows: seq<T>, key: T -> int, id: int) returns (r: Option<T>)
    ensures r.Some? ==> exists i :: 0 <= i < |rows| && rows[i] == r.value && key(rows[i]) == id
                                    && forall j :: 0 <= j < i ==> key(rows[j]) != id
    ensures r.None? <==> forall i :: 0 <= i < |rows| ==> key(rows[i]) != id
  {
    var i := 0;
    while i < |rows|
      invariant 0 <= i <= |rows|
      invariant forall j :: 0 <= j < i ==> key(rows[j]) != id
    {
      if key(rows[i]) == id {
        return Some(rows[i]);
      }
      i := i + 1;
    }
    return None;
  }

  /** No row carries `id` exactly when `id` is not among the table's keys. */
  lemma NotInKeys<T>(rows: seq<T>, key: T -> int, id: int)
    ensures (forall i :: 0 <= i < |rows| ==> key(rows[i]) != id) <==> id !in Keys(rows, key)
  {
    if id in Keys(rows, key) {
      var x :| x in rows && key(x) == id;
      var i :| 0 <= i < |rows| && rows[i] == x;
    }
  }

  /** Deletion of the row(s) carrying `id`; every other row stays, in the same order. */
  function RemoveKey<T(==,!new)>(rows: seq<T>, key: T -> int, id: int): (r: seq<T>)
    ensures forall x :: x in r <==> x in rows && key(x) != id
    ensures Keys(r, key) == Keys(rows, key) - {id}
    ensures |r| <= |rows|
  {
    if rows == [] then []
    else (if key(rows[0]) == id then [] else [rows[0]]) + RemoveKey(rows[1..], key, id)
  }

  /** Deleting rows keeps the primary-key constraint. */
  lemma {:induction false} RemoveKeyKeepsDistinct<T(!new)>(rows: seq<T>, key: T -> int, id: int)
    requires DistinctKeys(rows, key)
    ensures DistinctKeys(RemoveKey(rows, key, id), key)
  {
    if rows != [] {
      var tail := rows[1..];
      assert DistinctKeys(tail, key) by {
        forall i, j | 0 <= i < j < |tail| ensures key(tail[i]) != key(tail[j]) {
          assert tail[i] == rows[i + 1] && tail[j] == rows[j + 1];
        }
      }
      RemoveKeyKeepsDistinct(tail, key, id);
      if key(rows[0]) != id {
        assert key(rows[0]) !in Keys(tail, key) by {
          NotInKeys(tail, key, key(rows[0]));
          forall i | 0 <= i < |tail| ensures key(tail[i]) != key(rows[0]) {
            assert tail[i] == rows[i + 1];
          }
        }
        PrependKeepsDistinct(rows[0], RemoveKey(tail, key, id), key);
      }
    }
  }

  /** A row whose key is new may be put in front of a table without breaking the constraint. */
  lemma PrependKeepsDistinct<T>(x: T, rows: seq<T>, key: T -> int)
    requires DistinctKeys(rows, key) && key(x) !in Keys(rows, key)
    ensures DistinctKeys([x] + rows, key)
  {
    var s := [x] + rows;
    forall i, j | 0 <= i < j < |s| ensures key(s[i]) != key(s[j]) {
      assert s[j] == rows[j - 1];
      if i > 0 {
        assert s[i] == rows[i - 1];
      }
    }
  }

  /** Insertion: a row whose key is new appended at the end keeps the constraint and adds its key. */
  lemma AppendKeepsDistinct<T>(rows: seq<T>, key: T -> int, x: T)
    requires DistinctKeys(rows, key) && key(x) !in Keys(rows, key)
    ensures DistinctKeys(rows + [x], key)
    ensures Keys(rows + [x], key) == Keys(rows, key) + {key(x)}
  {
    var s := rows + [x];
    forall i, j | 0 <= i < j < |s| ensures key(s[i]) != key(s[j]) {
      assert s[i] == rows[i];
      if j < |rows| {
        assert s[j] == rows[j];
      } else {
        assert rows[i] in rows;
      }
    }
    assert forall y :: y in s <==> y in rows || y == x;
  }

  /** An in-place update of the row carrying `id` (its key is unchanged): every row with that key
      becomes `v`, the others stay, in the same positions. */
  function ReplaceKey<T>(rows: seq<T>, key: T -> int, id: int, v: T): (r: seq<T>)
    requires key(v) == id
  {
    seq(|rows|, i requires 0 <= i < |rows| => if key(rows[i]) == id then v else rows[i])
  }

  /** Replacing a stored row by one with the same key changes no key and keeps the constraint;
      the new row is stored, every row with another key is still there. */
  lemma ReplaceKeyKeeps<T>(rows: seq<T>, key: T -> int, id: int, v: T)
    requires key(v) == id && id in Keys(rows, key)
    ensures DistinctKeys(rows, key) ==> DistinctKeys(ReplaceKey(rows, key, id, v), key)
    ensures Keys(ReplaceKey(rows, key, id, v), key) == Keys(rows, key)
    ensures v in ReplaceKey(rows, key, id, v)
    ensures forall x :: x in rows && key(x) != id ==> x in ReplaceKey(rows, key, id, v)
  {
    var r := ReplaceKey(rows, key, id, v);
    assert forall i :: 0 <= i < |rows| ==> key(r[i]) == key(rows[i]);
    forall k | k in Keys(rows, key) ensures k in Keys(r, key) {
      var x :| x in rows && key(x) == k;
      var i :| 0 <= i < |rows| && rows[i] == x;
      assert r[i] in r;
    }
    var x :| x in rows && key(x) == id;
    var i :| 0 <= i < |rows| && rows[i] == x;
    assert r[i] == v;
    forall y | y in rows && key(y) != id ensures y in r {
      var j :| 0 <= j < |rows| && rows[j] == y;
      assert r[j] == y;
    }
  }
}

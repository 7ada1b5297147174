/** A table as the store keeps it: its rows in row-id order, each with an
    integer id column. These are the three statements the handlers run
    against a table by id, and the facts about them the store relies on. */
module Tables {

  /** The id column, in row order. */
  function Ids<T>(rows: seq<T>, id: T -> int): (r: seq<int>)
    ensures |r| == |rows|
    ensures forall i :: 0 <= i < |rows| ==> r[i] == id(rows[i])
  {
    if rows == [] then [] else [id(rows[0])] + Ids(rows[1..], id)
  }

  /** Ids are distinct and lie in `1..hi`, where `hi` is the largest id the
      table has ever handed out (`AUTOINCREMENT` never reuses one). */
  predicate Keyed<T>(rows: seq<T>, id: T -> int, hi: nat) {
    && (forall i :: 0 <= i < |rows| ==> 1 <= id(rows[i]) <= hi)
    && (forall i, j :: 0 <= i < j < |rows| ==> id(rows[i]) != id(rows[j]))
  }

  /** The number of rows `... WHERE id = k` touches (the cursor's `rowcount`). */
  function RowCount<T>(rows: seq<T>, id: T -> int, k: int): (n: nat)
    ensures n <= |rows|
    ensures n == 0 <==> k !in Ids(rows, id)
  {
    if rows == [] then 0 else (if id(rows[0]) == k then 1 else 0) + RowCount(rows[1..], id, k)
  }

  /** In a keyed table an id names at most one row. */
  lemma {:induction false} KeyedRowCount<T>(rows: seq<T>, id: T -> int, hi: nat, k: int)
    requires Keyed(rows, id, hi)
    ensures RowCount(rows, id, k) <= 1
  {
    if rows != [] {
      assert Keyed(rows[1..], id, hi);
      KeyedRowCount(rows[1..], id, hi, k);
      if id(rows[0]) == k {
        assert k !in Ids(rows[1..], id);
      }
    }
  }

  /** `UPDATE ... WHERE id = k`: every row with id `k` becomes `row`, every
      other row, and the order, stay as they were. */
  function UpdateWhere<T>(rows: seq<T>, id: T -> int, k: int, row: T): (r: seq<T>)
    ensures |r| == |rows|
    ensures forall i :: 0 <= i < |rows| ==> r[i] == if id(rows[i]) == k then row else rows[i]
    ensures k !in Ids(rows, id) ==> r == rows
  {
    if rows == [] then [] else [if id(rows[0]) == k then row else rows[0]] + UpdateWhere(rows[1..], id, k, row)
  }

  /** A row of an updated table is the new row or an untouched old one. */
  lemma UpdateWhereMember<T>(rows: seq<T>, id: T -> int, k: int, row: T, x: T)
    requires x in UpdateWhere(rows, id, k, row)
    ensures x == row || (x in rows && id(x) != k)
  {
    var r := UpdateWhere(rows, id, k, row);
    var i :| 0 <= i < |r| && r[i] == x;
  }

  /** `DELETE ... WHERE id = k`: the rows with id `k` go and the others
      stay, in order. */
  function DeleteWhere<T>(rows: seq<T>, id: T -> int, k: int): (r: seq<T>)
    ensures forall i :: 0 <= i < |r| ==> r[i] in rows && id(r[i]) != k
    ensures forall i :: 0 <= i < |rows| && id(rows[i]) != k ==> rows[i] in r
  {
    if rows == [] then [] else (if id(rows[0]) == k then [] else [rows[0]]) + DeleteWhere(rows[1..], id, k)
  }

  /** No row with id `k` is left, and as many rows go as the statement's
      row count says. */
  lemma {:induction false} DeleteWhereCount<T>(rows: seq<T>, id: T -> int, k: int)
    ensures k !in Ids(DeleteWhere(rows, id, k), id)
    ensures |DeleteWhere(rows, id, k)| == |rows| - RowCount(rows, id, k)
  {
    if rows != [] {
      DeleteWhereCount(rows[1..], id, k);
    }
  }

  /** A delete that matches nothing leaves the table as it was. */
  lemma {:induction false} DeleteWhereNothing<T>(rows: seq<T>, id: T -> int, k: int)
    requires k !in Ids(rows, id)
    ensures DeleteWhere(rows, id, k) == rows
  {
    if rows != [] {
      assert k !in Ids(rows[1..], id);
      DeleteWhereNothing(rows[1..], id, k);
    }
  }

  /** Appending a row under the next id keeps the table keyed. */
  lemma InsertKeyed<T>(rows: seq<T>, id: T -> int, hi: nat, row: T)
    requires Keyed(rows, id, hi) && id(row) == hi + 1
    ensures Keyed(rows + [row], id, hi + 1)
  {
  }

  /** Replacing a row by one with the same id keeps the table keyed. */
  lemma UpdateKeyed<T>(rows: seq<T>, id: T -> int, hi: nat, k: int, row: T)
    requires Keyed(rows, id, hi) && id(row) == k
    ensures Keyed(UpdateWhere(rows, id, k, row), id, hi)
    ensures Ids(UpdateWhere(rows, id, k, row), id) == Ids(rows, id)
  {
    var r := UpdateWhere(rows, id, k, row);
    assert forall i :: 0 <= i < |r| ==> id(r[i]) == id(rows[i]);
    assert Ids(r, id) == Ids(rows, id);
  }

  /** A row whose id is in range and new to the rest keeps it keyed. */
  lemma KeyedCons<T>(x: T, rest: seq<T>, id: T -> int, hi: nat)
    requires Keyed(rest, id, hi) && 1 <= id(x) <= hi
    requires forall i :: 0 <= i < |rest| ==> id(rest[i]) != id(x)
    ensures Keyed([x] + rest, id, hi)
  {
    var r := [x] + rest;
    forall i, j | 0 <= i < j < |r| ensures id(r[i]) != id(r[j]) {
      assert r[j] == rest[j - 1];
      if i > 0 {
        assert r[i] == rest[i - 1];
      }
    }
  }

  /** Deleting keeps the table keyed. */
  lemma {:induction false} DeleteKeyed<T>(rows: seq<T>, id: T -> int, hi: nat, k: int)
    requires Keyed(rows, id, hi)
    ensures Keyed(DeleteWhere(rows, id, k), id, hi)
  {
    if rows != [] {
      var tail := rows[1..];
      assert Keyed(tail, id, hi);
      DeleteKeyed(tail, id, hi, k);
      var rest := DeleteWhere(tail, id, k);
      if id(rows[0]) != k {
        forall i | 0 <= i < |rest| ensures id(rest[i]) != id(rows[0]) {
          var j :| 0 <= j < |tail| && tail[j] == rest[i];
          assert rows[j + 1] == rest[i];
        }
        KeyedCons(rows[0], rest, id, hi);
        assert DeleteWhere(rows, id, k) == [rows[0]] + rest;
      } else {
        assert DeleteWhere(rows, id, k) == rest;
      }
    }
  }
}

/**
 * Repository tables. A table is the sequence of its rows in insertion order; the
 * repository assigns id i + 1 to the row it stores at position i, so `findById`
 * is a positional lookup and `save` of a known entity replaces its row.
 */
module Tables {
  import opened Results

  /** Every row carries the id the repository gave it. */
  ghost predicate Keyed<T>(rows: seq<T>, key: T -> int)
  {
    forall i :: 0 <= i < |rows| ==> key(rows[i]) == i + 1
  }

  /** `findById`: the row stored under `id`, if any. */
  function Get<T>(rows: seq<T>, id: int): Option<T>
  {
    if 1 <= id <= |rows| then Some(rows[id - 1]) else None
  }

  /** `save` of an entity that is already stored under `id`. */
  function Put<T>(rows: seq<T>, id: int, x: T): seq<T>
    requires 1 <= id <= |rows|
  {
    rows[id - 1 := x]
  }

  /** In a keyed table, `findById` finds exactly the rows that carry the id asked for. */
  lemma GetByKey<T>(rows: seq<T>, key: T -> int, id: int)
    requires Keyed(rows, key)
    ensures Get(rows, id).Some? <==> exists x :: x in rows && key(x) == id
    ensures Get(rows, id).Some? ==> Get(rows, id).value in rows && key(Get(rows, id).value) == id
  {
    if x :| x in rows && key(x) == id {
      var i :| 0 <= i < |rows| && rows[i] == x;
      assert key(rows[i]) == i + 1;
    }
    if Get(rows, id).Some? {
      assert key(rows[id - 1]) == id;
    }
  }

  /** Saving a row in place, or appending one under the next id, keeps the table keyed. */
  lemma PutKeepsKeyed<T>(rows: seq<T>, key: T -> int, id: int, x: T)
    requires Keyed(rows, key) && 1 <= id <= |rows| && key(x) == id
    ensures Keyed(Put(rows, id, x), key)
    ensures Get(Put(rows, id, x), id) == Some(x)
    ensures forall other :: other != id ==> Get(Put(rows, id, x), other) == Get(rows, other)
  {
  }

  lemma AppendKeepsKeyed<T>(rows: seq<T>, key: T -> int, x: T)
    requires Keyed(rows, key) && key(x) == |rows| + 1
    ensures Keyed(rows + [x], key)
    ensures Get(rows + [x], |rows| + 1) == Some(x)
    ensures forall other :: other != |rows| + 1 ==> Get(rows + [x], other) == Get(rows, other)
  {
  }

  /** A derived query `findBy...` that returns at most one row: the first row that matches. */
  function Find<T>(rows: seq<T>, matches: T -> bool): (r: Option<T>)
    ensures r.None? <==> forall x :: x in rows ==> !matches(x)
    ensures r.Some? ==> r.value in rows && matches(r.value)
  {
    if rows == [] then None
    else if matches(rows[0]) then Some(rows[0])
    else Find(rows[1..], matches)
  }

  /** A derived query `findBy...` that returns a list: every matching row, each as often as it is stored. */
  function Filter<T(!new)>(rows: seq<T>, matches: T -> bool): (r: seq<T>)
    ensures |r| <= |rows|
    ensures forall x :: x in r <==> x in rows && matches(x)
    ensures forall x :: multiset(r)[x] == if matches(x) then multiset(rows)[x] else 0
  {
    if rows == [] then []
    else
      assert rows == [rows[0]] + rows[1..];
      (if matches(rows[0]) then [rows[0]] else []) + Filter(rows[1..], matches)
  }
}

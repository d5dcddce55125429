/** Vocabulary shared by every component: results of actions, sums over tables,
    and the ordered secondary indices of a multi-index table. */
module Basics {

  datatype Option<+T> = None | Some(value: T)

  /** The outcome of an action or of one of its steps. `Abort` stands for a failed
      `check`: the host then discards everything the action did. */
  datatype Result<+T> = Ok(value: T) | Abort {
    predicate IsFailure() {
      Abort?
    }

    function PropagateFailure<U>(): Result<U>
      requires Abort?
    {
      Abort
    }

    function Extract(): T
      requires Ok?
    {
      value
    }
  }

  datatype Guard = Pass | Fail {
    predicate IsFailure() {
      Fail?
    }

    function PropagateFailure<U>(): Result<U>
      requires Fail?
    {
      Abort
    }
  }

  /** The contract's `check`, for use as `:- Check(condition);`. */
  function Check(condition: bool): Guard {
    if condition then Pass else Fail
  }

  function Min(a: int, b: int): int {
    if a < b then a else b
  }

  function Max(a: int, b: int): int {
    if a < b then b else a
  }

  function Abs(a: int): int {
    if a < 0 then -a else a
  }

  // ---------- sums over the rows of a table ----------

  /** The sum of `f` over all rows of `m`. */
  ghost function SumOf<K(!new), V>(m: map<K, V>, f: V -> int): int
    decreases |m|
  {
    if m == map[] then 0
    else
      var k :| k in m;
      assert (m - {k}).Keys == m.Keys - {k};
      f(m[k]) + SumOf(m - {k}, f)
  }

  /** What row `k` contributes to `SumOf(m, f)`. */
  ghost function Part<K, V>(m: map<K, V>, f: V -> int, k: K): int {
    if k in m then f(m[k]) else 0
  }

  lemma {:induction false} SumSplit<K(!new), V>(m: map<K, V>, f: V -> int, k: K)
    requires k in m
    ensures SumOf(m, f) == f(m[k]) + SumOf(m - {k}, f)
    decreases |m|
  {
    var j :| j in m && SumOf(m, f) == f(m[j]) + SumOf(m - {j}, f);
    if j != k {
      assert (m - {j}).Keys == m.Keys - {j};
      assert (m - {k}).Keys == m.Keys - {k};
      SumSplit(m - {j}, f, k);
      SumSplit(m - {k}, f, j);
      assert m - {j} - {k} == m - {k} - {j};
    }
  }

  /** Erasing a row. */
  lemma SumErase<K(!new), V>(m: map<K, V>, f: V -> int, k: K)
    ensures SumOf(m - {k}, f) == SumOf(m, f) - Part(m, f, k)
  {
    if k in m {
      SumSplit(m, f, k);
    } else {
      assert m - {k} == m;
    }
  }

  /** Inserting or overwriting a row. */
  lemma SumStore<K(!new), V>(m: map<K, V>, f: V -> int, k: K, v: V)
    ensures SumOf(m[k := v], f) == SumOf(m, f) - Part(m, f, k) + f(v)
  {
    SumSplit(m[k := v], f, k);
    assert m[k := v] - {k} == m - {k};
    SumErase(m, f, k);
  }

  lemma {:induction false} SumNonNegative<K(!new), V>(m: map<K, V>, f: V -> int)
    requires forall k | k in m :: f(m[k]) >= 0
    ensures SumOf(m, f) >= 0
    decreases |m|
  {
    if m != map[] {
      var k :| k in m;
      assert (m - {k}).Keys == m.Keys - {k};
      SumSplit(m, f, k);
      SumNonNegative(m - {k}, f);
    }
  }

  /** No row contributes more than the whole sum of non-negative rows. */
  lemma SumBoundsRow<K(!new), V>(m: map<K, V>, f: V -> int, k: K)
    requires forall j | j in m :: f(m[j]) >= 0
    ensures 0 <= Part(m, f, k) <= SumOf(m, f)
  {
    SumErase(m, f, k);
    SumNonNegative(m - {k}, f);
    SumNonNegative(m, f);
  }

  /** A sum depends only on what the rows contribute. */
  lemma {:induction false} SumCongruent<K(!new), V>(m: map<K, V>, n: map<K, V>, f: V -> int, g: V -> int)
    requires m.Keys == n.Keys
    requires forall k | k in m :: f(m[k]) == g(n[k])
    ensures SumOf(m, f) == SumOf(n, g)
    decreases |m|
  {
    if m == map[] {
      assert n.Keys == {};
      assert n == map[];
    } else {
      var k :| k in m;
      assert (m - {k}).Keys == m.Keys - {k} == (n - {k}).Keys;
      SumSplit(m, f, k);
      SumSplit(n, g, k);
      SumCongruent(m - {k}, n - {k}, f, g);
    }
  }

  // ---------- ordered secondary indices ----------

  /** The order of a secondary index: by key, and by primary key among equal keys. */
  predicate Before(key: nat -> int, a: nat, b: nat) {
    key(a) < key(b) || (key(a) == key(b) && a < b)
  }

  predicate IsLeast(rows: set<nat>, key: nat -> int, a: nat) {
    a in rows && forall b | b in rows && b != a :: Before(key, a, b)
  }

  lemma {:induction false} LeastExists(rows: set<nat>, key: nat -> int)
    requires rows != {}
    ensures exists a :: IsLeast(rows, key, a)
    decreases |rows|
  {
    var x :| x in rows;
    var rest := rows - {x};
    if rest == {} {
      assert rows == {x};
      assert IsLeast(rows, key, x);
    } else {
      LeastExists(rest, key);
      var y :| IsLeast(rest, key, y);
      var a := if Before(key, x, y) then x else y;
      forall b | b in rows && b != a
        ensures Before(key, a, b)
      {
        assert b == x || b in rest;
      }
      assert IsLeast(rows, key, a);
    }
  }

  /** The first row of an index (`idx.begin()` of a non-empty index). */
  function Least(rows: set<nat>, key: nat -> int): (a: nat)
    requires rows != {}
    ensures IsLeast(rows, key, a)
  {
    LeastExists(rows, key);
    var a :| a in rows && IsLeast(rows, key, a);
    a
  }
}

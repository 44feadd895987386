/** Datatypes and sums shared by the other modules. */
module Common {

  datatype Option<+T> = None | Some(value: T)

  datatype Result<+T, +E> = Ok(value: T) | Err(error: E)

  function Max(a: int, b: int): int
  {
    if a < b then b else a
  }

  /** The value a table holds under a key, or what an absent row reads as. */
  function Lookup<K, V>(m: map<K, V>, k: K, absent: V): (v: V)
  {
    if k in m then m[k] else absent
  }

  ghost function PickKey<K>(m: map<K, int>): (k: K)
    requires m != map[]
    ensures k in m
  {
    var k :| k in m; k
  }

  /** The sum of the values of a finite map, whatever order the keys come in. */
  ghost function SumMap<K>(m: map<K, int>): int
    decreases |m|
  {
    if m == map[] then 0
    else
      var k := PickKey(m);
      m[k] + SumMap(m - {k})
  }

  /** The order the keys are taken in does not matter: any key may come first. */
  lemma {:induction false} SumMapRemove<K>(m: map<K, int>, k: K)
    requires k in m
    ensures SumMap(m) == m[k] + SumMap(m - {k})
    decreases |m|
  {
    var first := PickKey(m);
    if first != k {
      SumMapRemove(m - {first}, k);
      SumMapRemove(m - {k}, first);
      assert m - {first} - {k} == m - {k} - {first};
    }
  }

  /** Writing one key changes the sum by exactly the change of that key. */
  lemma SumMapUpdate<K>(m: map<K, int>, k: K, v: int)
    ensures SumMap(m[k := v]) == SumMap(m) + v - Lookup(m, k, 0)
  {
    var m' := m[k := v];
    SumMapRemove(m', k);
    if k in m {
      SumMapRemove(m, k);
      assert m' - {k} == m - {k};
    } else {
      assert m' - {k} == m;
    }
  }

  lemma {:induction false} SumMapZero<K>(m: map<K, int>)
    requires forall k :: k in m ==> m[k] == 0
    ensures SumMap(m) == 0
    decreases |m|
  {
    if m != map[] {
      SumMapZero(m - {PickKey(m)});
    }
  }

  lemma {:induction false} SumMapOnes<K>(m: map<K, int>)
    requires forall k :: k in m ==> m[k] == 1
    ensures SumMap(m) == |m|
    decreases |m|
  {
    if m != map[] {
      SumMapOnes(m - {PickKey(m)});
    }
  }

  /** Renaming the keys one to one keeps the sum. */
  lemma {:induction false} SumMapRename<K, L>(m: map<K, int>, renamed: map<L, int>, name: K -> L)
    requires forall k :: k in m ==> name(k) in renamed && renamed[name(k)] == m[k]
    requires forall k, j :: k in m && j in m && k != j ==> name(k) != name(j)
    requires forall l :: l in renamed ==> exists k :: k in m && name(k) == l
    ensures SumMap(m) == SumMap(renamed)
    decreases |m|
  {
    if m == map[] {
      assert renamed == map[];
    } else {
      var k := PickKey(m);
      SumMapRemove(renamed, name(k));
      SumMapRename(m - {k}, renamed - {name(k)}, name);
    }
  }

  lemma SubsetCount<T>(a: set<T>, b: set<T>)
    requires a <= b
    ensures |a| <= |b|
  {
    assert b == a + (b - a);
  }

  /** The calendar day in Seoul, counted from 1 January 1970; Seoul is nine hours ahead all year. */
  function LocalDay(seconds: int): int
  {
    (seconds + 9 * 3600) / 86400
  }

  /** A day there begins at three in the afternoon of the day before, as the clock counts. */
  lemma DaysBeginAtThree(day: int, seconds: int)
    ensures LocalDay(seconds) == day <==> 86400 * day - 32400 <= seconds < 86400 * day + 54000
  {
  }
}

/**
 * `df.groupby(keys, as_index=False).agg({a: "sum", b: "sum"})`, the
 * consolidation step nearly every script ends with. pandas drops a row
 * whose key holds a NaN (groupby's default dropna=True); here such a row
 * carries the key None. Amounts are exact reals.
 */
module GroupBy {
  import opened Wrappers

  /** A row as the aggregation sees it: its group key and the two summed columns. */
  datatype Entry<K> = Entry(key: Option<K>, a: real, b: real)

  datatype Sums = Sums(a: real, b: real)

  function Plus(x: Sums, y: Sums): Sums
  {
    Sums(x.a + y.a, x.b + y.b)
  }

  /** What one row adds to the group `k`. */
  function Share<K(==)>(r: Entry<K>, k: K): Sums
  {
    if r.key == Some(k) then Sums(r.a, r.b) else Sums(0.0, 0.0)
  }

  /** The sums of the rows of group `k`: the reference the aggregation is measured against. */
  function GroupSum<K(==)>(rows: seq<Entry<K>>, k: K): Sums
    decreases |rows|
  {
    if rows == [] then Sums(0.0, 0.0) else Plus(GroupSum(rows[..|rows| - 1], k), Share(rows[|rows| - 1], k))
  }

  predicate HasKey<K(==)>(rows: seq<Entry<K>>, k: K)
  {
    exists i :: 0 <= i < |rows| && rows[i].key == Some(k)
  }

  /** Adding one row to the running table of groups. */
  function AddRow<K(==)>(m: map<K, Sums>, r: Entry<K>): map<K, Sums>
  {
    match r.key
    case None => m
    case Some(k) => m[k := Plus(if k in m then m[k] else Sums(0.0, 0.0), Sums(r.a, r.b))]
  }

  /** The grouped table, built by folding the rows in order. */
  function Aggregate<K(==)>(rows: seq<Entry<K>>): map<K, Sums>
    decreases |rows|
  {
    if rows == [] then map[] else AddRow(Aggregate(rows[..|rows| - 1]), rows[|rows| - 1])
  }

  /** A group exists exactly for the keys some row carries, and holds that key's sums. */
  lemma {:induction false} AggregateIsGroupSum<K(!new)>(rows: seq<Entry<K>>)
    ensures forall k :: k in Aggregate(rows) <==> HasKey(rows, k)
    ensures forall k :: k in Aggregate(rows) ==> Aggregate(rows)[k] == GroupSum(rows, k)
    decreases |rows|
  {
    if rows != [] {
      var init, r := rows[..|rows| - 1], rows[|rows| - 1];
      AggregateIsGroupSum(init);
      forall k
        ensures k in Aggregate(rows) <==> HasKey(rows, k)
      {
        if HasKey(init, k) {
          var i :| 0 <= i < |init| && init[i].key == Some(k);
          assert rows[i] == init[i];
        }
        if HasKey(rows, k) && r.key != Some(k) {
          var i :| 0 <= i < |rows| && rows[i].key == Some(k);
          assert init[i] == rows[i];
        }
      }
      forall k | k in Aggregate(rows)
        ensures Aggregate(rows)[k] == GroupSum(rows, k)
      {
        if k !in Aggregate(init) {
          NoKeyZeroSum(init, k);
        }
      }
    }
  }

  /** A key no row carries has empty sums. */
  lemma {:induction false} NoKeyZeroSum<K>(rows: seq<Entry<K>>, k: K)
    requires !HasKey(rows, k)
    ensures GroupSum(rows, k) == Sums(0.0, 0.0)
    decreases |rows|
  {
    if rows != [] {
      var init := rows[..|rows| - 1];
      forall i | 0 <= i < |init|
        ensures init[i].key != Some(k)
      {
        assert init[i] == rows[i];
      }
      NoKeyZeroSum(init, k);
    }
  }

  // ---------------------------------------------------------------- order independence

  lemma {:induction false} GroupSumAppend<K>(s: seq<Entry<K>>, t: seq<Entry<K>>, k: K)
    ensures GroupSum(s + t, k) == Plus(GroupSum(s, k), GroupSum(t, k))
    decreases |t|
  {
    if t == [] {
      assert s + t == s;
    } else {
      var t0, x := t[..|t| - 1], t[|t| - 1];
      var st := s + t;
      assert st[..|st| - 1] == s + t0 && st[|st| - 1] == x;
      assert GroupSum(st, k) == Plus(GroupSum(s + t0, k), Share(x, k));
      assert GroupSum(t, k) == Plus(GroupSum(t0, k), Share(x, k));
      GroupSumAppend(s, t0, k);
    }
  }

  lemma GroupSumSingle<K>(r: Entry<K>, k: K)
    ensures GroupSum([r], k) == Share(r, k)
  {
    assert [r][..0] == [];
  }

  /** Taking one row out of the middle takes out exactly its share. */
  lemma GroupSumMiddle<K>(pre: seq<Entry<K>>, x: Entry<K>, post: seq<Entry<K>>, k: K)
    ensures GroupSum(pre + [x] + post, k) == Plus(GroupSum(pre + post, k), Share(x, k))
  {
    var left := pre + [x];
    GroupSumAppend(left, post, k);
    GroupSumAppend(pre, [x], k);
    GroupSumAppend(pre, post, k);
    GroupSumSingle(x, k);
    var a, b, c := GroupSum(pre, k), Share(x, k), GroupSum(post, k);
    assert GroupSum(left, k) == Plus(a, b);
    assert GroupSum(left + post, k) == Plus(Plus(a, b), c);
    assert GroupSum(pre + post, k) == Plus(a, c);
    PlusSwap(a, b, c);
  }

  lemma PlusSwap(a: Sums, b: Sums, c: Sums)
    ensures Plus(Plus(a, b), c) == Plus(Plus(a, c), b)
  {
  }

  /** The sums of a group depend only on which rows there are, not on their order. */
  lemma {:induction false} GroupSumPermutation<K>(s: seq<Entry<K>>, t: seq<Entry<K>>, k: K)
    requires multiset(s) == multiset(t)
    ensures GroupSum(s, k) == GroupSum(t, k)
    decreases |s|
  {
    if s != [] {
      var n := |s| - 1;
      var x := s[n];
      assert x in multiset(t);
      var i :| 0 <= i < |t| && t[i] == x;
      var rest := t[..i] + t[i + 1..];
      assert t == t[..i] + [x] + t[i + 1..];
      assert s == s[..n] + [x];
      assert multiset(t) == multiset(rest) + multiset{x};
      assert multiset(s) == multiset(s[..n]) + multiset{x};
      assert multiset(s[..n]) == multiset(s) - multiset{x};
      assert multiset(rest) == multiset(t) - multiset{x};
      assert GroupSum(s, k) == Plus(GroupSum(s[..n], k), Share(x, k));
      GroupSumPermutation(s[..n], rest, k);
      GroupSumMiddle(t[..i], x, t[i + 1..], k);
    } else {
      assert t == [];
    }
  }

  /** Reordering the input rows leaves the grouped table unchanged. */
  lemma AggregatePermutation<K(!new)>(s: seq<Entry<K>>, t: seq<Entry<K>>)
    requires multiset(s) == multiset(t)
    ensures Aggregate(s) == Aggregate(t)
  {
    AggregateIsGroupSum(s);
    AggregateIsGroupSum(t);
    var ms, mt := Aggregate(s), Aggregate(t);
    forall k: K
      ensures k in ms <==> k in mt
    {
      if HasKey(s, k) {
        var i :| 0 <= i < |s| && s[i].key == Some(k);
        assert s[i] in multiset(t);
        var j :| 0 <= j < |t| && t[j] == s[i];
        assert HasKey(t, k);
      }
      if HasKey(t, k) {
        var i :| 0 <= i < |t| && t[i].key == Some(k);
        assert t[i] in multiset(s);
        var j :| 0 <= j < |s| && s[j] == t[i];
        assert HasKey(s, k);
      }
    }
    forall k | k in ms
      ensures ms[k] == mt[k]
    {
      GroupSumPermutation(s, t, k);
    }
    TablesEqual(ms, mt);
  }

  lemma TablesEqual<K>(m1: map<K, Sums>, m2: map<K, Sums>)
    requires forall k :: k in m1 <==> k in m2
    requires forall k :: k in m1 ==> m1[k] == m2[k]
    ensures m1 == m2
  {
  }

  // ---------------------------------------------------------------- conservation

  /** The sums over every row that has a key: what the groups share out between them. */
  function KeptTotal<K>(rows: seq<Entry<K>>): Sums
    decreases |rows|
  {
    if rows == [] then Sums(0.0, 0.0)
    else
      var r := rows[|rows| - 1];
      Plus(KeptTotal(rows[..|rows| - 1]), if r.key.Some? then Sums(r.a, r.b) else Sums(0.0, 0.0))
  }

  /** The sums over all groups of a table. */
  ghost function TableTotal<K>(m: map<K, Sums>): Sums
    decreases |m.Keys|
  {
    if m == map[] then Sums(0.0, 0.0)
    else
      var k :| k in m;
      Plus(m[k], TableTotal(m - {k}))
  }

  /** TableTotal may take the groups in any order. */
  lemma {:induction false} TableTotalPick<K>(m: map<K, Sums>, j: K)
    requires j in m
    ensures TableTotal(m) == Plus(m[j], TableTotal(m - {j}))
    decreases |m.Keys|
  {
    var k :| k in m && TableTotal(m) == Plus(m[k], TableTotal(m - {k}));
    if k != j {
      var mk := m - {k};
      var mj := m - {j};
      assert |mk.Keys| < |m.Keys| by {
        assert mk.Keys < m.Keys;
      }
      TableTotalPick(mk, j);
      assert mk - {j} == mj - {k};
      assert |mj.Keys| < |m.Keys| by {
        assert mj.Keys < m.Keys;
      }
      TableTotalPick(mj, k);
      var rest := TableTotal(mk - {j});
      assert mk[j] == m[j] && mj[k] == m[k];
      assert TableTotal(mk) == Plus(m[j], rest);
      assert TableTotal(mj) == Plus(m[k], rest);
      assert TableTotal(m) == Plus(m[k], Plus(m[j], rest));
      assert Plus(m[k], Plus(m[j], rest)) == Plus(m[j], Plus(m[k], rest));
    }
  }

  /** Adding a row moves exactly its amounts into the table total. */
  lemma AddRowTotal<K>(m: map<K, Sums>, r: Entry<K>)
    ensures TableTotal(AddRow(m, r)) == Plus(TableTotal(m), if r.key.Some? then Sums(r.a, r.b) else Sums(0.0, 0.0))
  {
    if r.key.Some? {
      var k := r.key.value;
      var m2 := AddRow(m, r);
      TableTotalPick(m2, k);
      assert m2 - {k} == m - {k};
      if k in m {
        TableTotalPick(m, k);
      } else {
        assert m - {k} == m;
      }
    }
  }

  /** No amount is lost or invented: the groups together hold the sums of every row with a key. */
  lemma {:induction false} AggregateConserves<K>(rows: seq<Entry<K>>)
    ensures TableTotal(Aggregate(rows)) == KeptTotal(rows)
    decreases |rows|
  {
    if rows != [] {
      AggregateConserves(rows[..|rows| - 1]);
      AddRowTotal(Aggregate(rows[..|rows| - 1]), rows[|rows| - 1]);
    }
  }

  // ---------------------------------------------------------------- signs

  /** Groups of rows with no negative amount have no negative sum. */
  lemma {:induction false} GroupSumNonNegative<K>(rows: seq<Entry<K>>, k: K)
    requires forall i :: 0 <= i < |rows| ==> rows[i].a >= 0.0 && rows[i].b >= 0.0
    ensures GroupSum(rows, k).a >= 0.0 && GroupSum(rows, k).b >= 0.0
    decreases |rows|
  {
    if rows != [] {
      GroupSumNonNegative(rows[..|rows| - 1], k);
    }
  }

  /** Groups of rows with no negative second amount have no negative second sum, whatever the first amounts. */
  lemma {:induction false} GroupSecondNonNegative<K>(rows: seq<Entry<K>>, k: K)
    requires forall i :: 0 <= i < |rows| ==> rows[i].b >= 0.0
    ensures GroupSum(rows, k).b >= 0.0
    decreases |rows|
  {
    if rows != [] {
      GroupSecondNonNegative(rows[..|rows| - 1], k);
    }
  }

  /** A group of rows whose second amount is positive has a positive second sum. */
  lemma {:induction false} GroupSumPositive<K>(rows: seq<Entry<K>>, k: K)
    requires forall i :: 0 <= i < |rows| ==> rows[i].b > 0.0
    requires HasKey(rows, k)
    ensures GroupSum(rows, k).b > 0.0
    decreases |rows|
  {
    var init, last := rows[..|rows| - 1], rows[|rows| - 1];
    forall i | 0 <= i < |init| ensures init[i].b > 0.0 {
      assert init[i] == rows[i];
    }
    var sum := GroupSum(init, k);
    assert GroupSum(rows, k) == Plus(sum, Share(last, k));
    if last.key == Some(k) {
      GroupSecondNonNegative(init, k);
      assert Share(last, k).b == last.b;
    } else {
      var i :| 0 <= i < |rows| && rows[i].key == Some(k);
      assert i < |init| && init[i] == rows[i];
      GroupSumPositive(init, k);
      assert Share(last, k).b == 0.0;
    }
  }

  /** Every group of a table built from such rows is non-negative. */
  lemma AggregateNonNegative<K(!new)>(rows: seq<Entry<K>>)
    requires forall i :: 0 <= i < |rows| ==> rows[i].a >= 0.0 && rows[i].b >= 0.0
    ensures forall k :: k in Aggregate(rows) ==> Aggregate(rows)[k].a >= 0.0 && Aggregate(rows)[k].b >= 0.0
  {
    AggregateIsGroupSum(rows);
    forall k | k in Aggregate(rows) ensures Aggregate(rows)[k].a >= 0.0 && Aggregate(rows)[k].b >= 0.0 {
      GroupSumNonNegative(rows, k);
    }
  }

  /** Every group of a table built from rows with a positive second amount has a positive second sum. */
  lemma AggregatePositive<K(!new)>(rows: seq<Entry<K>>)
    requires forall i :: 0 <= i < |rows| ==> rows[i].b > 0.0
    ensures forall k :: k in Aggregate(rows) ==> Aggregate(rows)[k].b > 0.0
  {
    AggregateIsGroupSum(rows);
    forall k | k in Aggregate(rows) ensures Aggregate(rows)[k].b > 0.0 {
      GroupSumPositive(rows, k);
    }
  }

  /** Every group's key is the key of some row. */
  lemma AggregateKeys<K(!new)>(rows: seq<Entry<K>>, k: K)
    requires k in Aggregate(rows)
    ensures exists i :: 0 <= i < |rows| && rows[i].key == Some(k)
  {
    AggregateIsGroupSum(rows);
  }

  // ---------------------------------------------------------------- derived columns

  /**
   * `valor_total / vendas` on a grouped row (a = vendas, b = valor_total);
   * None stands for the inf or NaN pandas yields when vendas is 0.
   */
  function MeanPrice(s: Sums): (r: Option<real>)
    ensures r.Some? <==> s.a != 0.0
    ensures r.Some? ==> r.value * s.a == s.b
  {
    if s.a == 0.0 then None else Some(s.b / s.a)
  }

  // ---------------------------------------------------------------- "first"

  /** agg("first"): the first non-missing value among the rows of group `k`, None when all are missing. */
  function FirstOf<K(==), V>(keys: seq<Option<K>>, vals: seq<Option<V>>, k: K): (r: Option<V>)
    requires |keys| == |vals|
    ensures r.Some? ==> exists i :: 0 <= i < |keys| && keys[i] == Some(k) && vals[i] == r &&
                                    (forall j :: 0 <= j < i && keys[j] == Some(k) ==> vals[j].None?)
    ensures r.None? ==> forall i :: 0 <= i < |keys| && keys[i] == Some(k) ==> vals[i].None?
  {
    if keys == [] then None
    else if keys[0] == Some(k) && vals[0].Some? then vals[0]
    else FirstOf(keys[1..], vals[1..], k)
  }
}

/**
 * Table operations the scripts take from pandas and plain Python, on a table
 * given as its header and the sequence of its rows: the first column whose
 * name passes a test (`next(c for c in df.columns if ...)`), and
 * drop_duplicates(subset=...) with its default keep="first".
 */
module Frames {
  import opened Wrappers
  import opened Strings

  /** `next((x for x in xs if p(x)), None)`, as the index of the element found. */
  function FirstIndex<T>(xs: seq<T>, p: T -> bool): (r: Option<nat>)
    ensures r.Some? ==> r.value < |xs| && p(xs[r.value]) && forall k :: 0 <= k < r.value ==> !p(xs[k])
    ensures r.None? ==> forall k :: 0 <= k < |xs| ==> !p(xs[k])
    decreases |xs|
  {
    if xs == [] then None
    else if p(xs[0]) then Some(0)
    else
      var r := FirstIndex(xs[1..], p);
      if r.None? then None else Some(r.value + 1)
  }

  /** An element that passes, with none passing before it, is the one found. */
  lemma {:induction false} FirstIndexAt<T>(xs: seq<T>, p: T -> bool, j: nat)
    requires j < |xs| && p(xs[j])
    requires forall k :: 0 <= k < j ==> !p(xs[k])
    ensures FirstIndex(xs, p) == Some(j)
    decreases j
  {
    if j > 0 {
      FirstIndexAt(xs[1..], p, j - 1);
    }
  }

  /** A prefix one longer is the shorter prefix and the next element. */
  lemma PrefixSnoc<T>(xs: seq<T>, i: nat)
    requires i < |xs|
    ensures xs[..i + 1] == xs[..i] + [xs[i]]
  {
  }

  /** Nothing is found when nothing passes. */
  lemma FirstIndexNone<T>(xs: seq<T>, p: T -> bool)
    requires forall k :: 0 <= k < |xs| ==> !p(xs[k])
    ensures FirstIndex(xs, p) == None
  {
  }

  /** `xs[j]` is the first element that passes. */
  predicate FirstPassing<T>(xs: seq<T>, p: T -> bool, j: nat)
  {
    j < |xs| && p(xs[j]) && forall k :: 0 <= k < j ==> !p(xs[k])
  }

  /** No element passes. */
  predicate NonePass<T>(xs: seq<T>, p: T -> bool)
  {
    forall k :: 0 <= k < |xs| ==> !p(xs[k])
  }

  /** The names containing one of the markers (`'a' in c or 'b' in c ...`). */
  function ContainsAny(markers: seq<string>): string -> bool
  {
    c => exists m :: m in markers && Contains(c, m)
  }

  /** `[c.strip().lower() for c in df.columns]`: every name stripped and lower-cased, in place. */
  function CleanHeader(cols: seq<string>): (r: seq<string>)
    ensures |r| == |cols| && forall i :: 0 <= i < |cols| ==> r[i] == Lower(Trim(cols[i]))
  {
    seq(|cols|, i requires 0 <= i < |cols| => Lower(Trim(cols[i])))
  }

  /** A table as read: its header and its rows, one optional cell per column (None is NaN). */
  datatype Sheet = Sheet(header: seq<string>, rows: seq<seq<Option<string>>>)

  /** The cell of column `j`; a short row reads as NaN. */
  function CellAt(row: seq<Option<string>>, j: nat): Option<string>
  {
    if j < |row| then row[j] else None
  }

  /** The test `c == name` on column names. */
  function NameIs(name: string): string -> bool
  {
    c => c == name
  }

  /** `df[name]` for one row: the first column of that name, NaN when there is none. */
  function CellOf(header: seq<string>, row: seq<Option<string>>, name: string): (r: Option<string>)
    ensures name !in header ==> r.None?
  {
    match FirstIndex(header, NameIs(name))
    case None => None
    case Some(j) => CellAt(row, j)
  }

  /** DataFrame.empty: no column or no row. */
  predicate EmptySheet(s: Sheet)
  {
    s.header == [] || s.rows == []
  }

  /** pd.concat of a list of frames: their rows, frame after frame. */
  function Flatten<T>(frames: seq<seq<T>>): seq<T>
    decreases |frames|
  {
    if frames == [] then [] else Flatten(frames[..|frames| - 1]) + frames[|frames| - 1]
  }

  /** Some row of `rows` has key `k`. */
  predicate KeyIn<T, K(==)>(rows: seq<T>, key: T -> K, k: K)
  {
    exists j :: 0 <= j < |rows| && key(rows[j]) == k
  }

  /** Row `i` is the first row of `rows` with its key. */
  predicate IsFirst<T, K(==)>(rows: seq<T>, key: T -> K, i: int)
    requires 0 <= i < |rows|
  {
    forall j :: 0 <= j < i ==> key(rows[j]) != key(rows[i])
  }

  /**
   * DataFrame.drop_duplicates(subset) with keep="first": the rows are taken
   * in order, and a row is dropped when an earlier kept row has its key.
   */
  function DropDuplicates<T, K(==)>(rows: seq<T>, key: T -> K): seq<T>
    decreases |rows|
  {
    if rows == [] then []
    else
      var kept := DropDuplicates(rows[..|rows| - 1], key);
      var last := rows[|rows| - 1];
      if KeyIn(kept, key, key(last)) then kept else kept + [last]
  }

  /** The reference: every row that is the first of its key, in order. */
  function FirstOccurrences<T, K(==)>(rows: seq<T>, key: T -> K): seq<T>
    decreases |rows|
  {
    if rows == [] then []
    else
      FirstOccurrences(rows[..|rows| - 1], key)
        + (if IsFirst(rows, key, |rows| - 1) then [rows[|rows| - 1]] else [])
  }

  /** No key is lost and none is invented: the result holds exactly the keys of the input. */
  lemma {:induction false} DropDuplicatesKeys<T, K>(rows: seq<T>, key: T -> K, k: K)
    ensures KeyIn(DropDuplicates(rows, key), key, k) <==> KeyIn(rows, key, k)
    decreases |rows|
  {
    if rows != [] {
      var init := rows[..|rows| - 1];
      var last := rows[|rows| - 1];
      var kept := DropDuplicates(init, key);
      DropDuplicatesKeys(init, key, k);
      DropDuplicatesKeys(init, key, key(last));
      if KeyIn(rows, key, k) {
        var i :| 0 <= i < |rows| && key(rows[i]) == k;
        if i < |rows| - 1 {
          assert init[i] == rows[i];
        }
      }
      if KeyIn(init, key, k) {
        var i :| 0 <= i < |init| && key(init[i]) == k;
        assert rows[i] == init[i];
      }
      if !KeyIn(kept, key, key(last)) {
        var r := kept + [last];
        assert r[|kept|] == last;
        if KeyIn(r, key, k) {
          var j :| 0 <= j < |r| && key(r[j]) == k;
          if j < |kept| {
            assert kept[j] == r[j];
          } else {
            assert rows[|rows| - 1] == last;
          }
        }
        if KeyIn(kept, key, k) {
          var j :| 0 <= j < |kept| && key(kept[j]) == k;
          assert r[j] == kept[j];
        }
      }
    }
  }

  /** The last row is the first of its key exactly when no earlier row has that key. */
  lemma LastIsFirst<T, K>(rows: seq<T>, key: T -> K)
    requires rows != []
    ensures IsFirst(rows, key, |rows| - 1) <==> !KeyIn(rows[..|rows| - 1], key, key(rows[|rows| - 1]))
  {
    var init := rows[..|rows| - 1];
    if KeyIn(init, key, key(rows[|rows| - 1])) {
      var j :| 0 <= j < |init| && key(init[j]) == key(rows[|rows| - 1]);
      assert rows[j] == init[j];
    }
    if !IsFirst(rows, key, |rows| - 1) {
      var j :| 0 <= j < |rows| - 1 && key(rows[j]) == key(rows[|rows| - 1]);
      assert init[j] == rows[j];
    }
  }

  /** drop_duplicates keeps exactly the first row of every key, in their original order. */
  lemma {:induction false} DropDuplicatesIsFirstOccurrences<T, K>(rows: seq<T>, key: T -> K)
    ensures DropDuplicates(rows, key) == FirstOccurrences(rows, key)
    decreases |rows|
  {
    if rows != [] {
      var init := rows[..|rows| - 1];
      DropDuplicatesIsFirstOccurrences(init, key);
      DropDuplicatesKeys(init, key, key(rows[|rows| - 1]));
      LastIsFirst(rows, key);
    }
  }

  /** No two rows of `rows` share a key. */
  predicate DistinctKeys<T, K(==)>(rows: seq<T>, key: T -> K)
  {
    forall i, j :: 0 <= i < j < |rows| ==> key(rows[i]) != key(rows[j])
  }

  /** No two kept rows share a key. */
  lemma {:induction false} DropDuplicatesDistinct<T, K>(rows: seq<T>, key: T -> K)
    ensures DistinctKeys(DropDuplicates(rows, key), key)
    decreases |rows|
  {
    if rows != [] {
      var init := rows[..|rows| - 1];
      var last := rows[|rows| - 1];
      var kept := DropDuplicates(init, key);
      DropDuplicatesDistinct(init, key);
      if !KeyIn(kept, key, key(last)) {
        var r := kept + [last];
        forall i, j | 0 <= i < j < |r| ensures key(r[i]) != key(r[j]) {
          assert r[i] == kept[i];
          if j == |kept| {
            assert r[j] == last;
          } else {
            assert r[j] == kept[j];
            assert key(kept[i]) != key(kept[j]);
          }
        }
        assert DistinctKeys(r, key);
      }
    }
  }
}

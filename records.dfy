/**
 * A day's log as the batch reads it from a user's daily documents, and
 * sort_values("date_key"): ordering by the key string.
 */
module Records {
  import opened Wrappers

  /** One row of the daily DataFrame: date_key, moodScore, sleep_hours, steps, stress. */
  datatype LogRow = LogRow(
    dateKey: string,
    mood: int,
    sleep: Option<real>,
    steps: Option<int>,
    stress: Option<int>)

  /** The moodScore column. */
  function Moods(rows: seq<LogRow>): (r: seq<int>)
    ensures |r| == |rows|
    ensures forall k :: 0 <= k < |rows| ==> r[k] == rows[k].mood
  {
    seq(|rows|, k requires 0 <= k < |rows| => rows[k].mood)
  }

  /** df[mask]: the rows that satisfy p, in their original order. */
  function Where(rows: seq<LogRow>, p: LogRow -> bool): (r: seq<LogRow>)
    ensures |r| <= |rows|
    ensures forall k :: 0 <= k < |r| ==> p(r[k]) && r[k] in rows
    ensures forall x :: x in rows && p(x) ==> x in r
    ensures (forall k :: 0 <= k < |rows| ==> !p(rows[k])) ==> r == []
  {
    if rows == [] then []
    else
      var init := Where(rows[..|rows| - 1], p);
      var last := rows[|rows| - 1];
      assert forall x :: x in rows ==> x in rows[..|rows| - 1] || x == last;
      init + (if p(last) then [last] else [])
  }

  /** df[mask] keeps each matching row as many times as it occurs, and no other row. */
  lemma {:induction false} WhereMultiset(rows: seq<LogRow>, p: LogRow -> bool)
    ensures forall x :: multiset(Where(rows, p))[x] == if p(x) then multiset(rows)[x] else 0
  {
    if rows != [] {
      WhereMultiset(rows[..|rows| - 1], p);
      assert rows == rows[..|rows| - 1] + [rows[|rows| - 1]];
    }
  }

  /** Python's a <= b on strings: lexicographic by code point. */
  predicate KeyLe(a: string, b: string)
    decreases |a|
  {
    a == [] || (b != [] && (a[0] < b[0] || (a[0] == b[0] && KeyLe(a[1..], b[1..]))))
  }

  lemma {:induction false} KeyLeReflexive(a: string)
    ensures KeyLe(a, a)
    decreases |a|
  {
    if a != [] {
      KeyLeReflexive(a[1..]);
    }
  }

  lemma {:induction false} KeyLeTotal(a: string, b: string)
    ensures KeyLe(a, b) || KeyLe(b, a)
    decreases |a|
  {
    if a != [] && b != [] && a[0] == b[0] {
      KeyLeTotal(a[1..], b[1..]);
    }
  }

  lemma {:induction false} KeyLeAntisymmetric(a: string, b: string)
    requires KeyLe(a, b) && KeyLe(b, a)
    ensures a == b
    decreases |a|
  {
    if a != [] && b != [] {
      KeyLeAntisymmetric(a[1..], b[1..]);
      assert a == [a[0]] + a[1..] && b == [b[0]] + b[1..];
    }
  }

  lemma {:induction false} KeyLeTransitive(a: string, b: string, c: string)
    requires KeyLe(a, b) && KeyLe(b, c)
    ensures KeyLe(a, c)
    decreases |a|
  {
    if a != [] && a[0] == b[0] && b[0] == c[0] {
      KeyLeTransitive(a[1..], b[1..], c[1..]);
    }
  }

  predicate SortedByKey(rows: seq<LogRow>)
  {
    forall i, j :: 0 <= i < j < |rows| ==> KeyLe(rows[i].dateKey, rows[j].dateKey)
  }

  /** Places x before the first row whose key is not smaller (so equal keys keep their order). */
  function Insert(x: LogRow, rows: seq<LogRow>): (r: seq<LogRow>)
    ensures |r| == |rows| + 1
  {
    if rows == [] then [x]
    else if KeyLe(x.dateKey, rows[0].dateKey) then [x] + rows
    else [rows[0]] + Insert(x, rows[1..])
  }

  /** sort_values("date_key"), as a stable insertion sort. */
  function SortByKey(rows: seq<LogRow>): (r: seq<LogRow>)
    ensures |r| == |rows|
  {
    if rows == [] then [] else Insert(rows[0], SortByKey(rows[1..]))
  }

  predicate AllAtLeast(key: string, rows: seq<LogRow>)
  {
    forall k :: 0 <= k < |rows| ==> KeyLe(key, rows[k].dateKey)
  }

  lemma SortedCons(rows: seq<LogRow>)
    requires rows != []
    ensures SortedByKey(rows) <==> AllAtLeast(rows[0].dateKey, rows[1..]) && SortedByKey(rows[1..])
  {
    if AllAtLeast(rows[0].dateKey, rows[1..]) && SortedByKey(rows[1..]) {
      forall i, j | 0 <= i < j < |rows| ensures KeyLe(rows[i].dateKey, rows[j].dateKey) {
        if i > 0 {
          assert rows[i] == rows[1..][i - 1] && rows[j] == rows[1..][j - 1];
        } else {
          assert rows[j] == rows[1..][j - 1];
        }
      }
    }
  }

  lemma {:induction false} InsertAllAtLeast(key: string, x: LogRow, rows: seq<LogRow>)
    requires AllAtLeast(key, rows) && KeyLe(key, x.dateKey)
    ensures AllAtLeast(key, Insert(x, rows))
  {
    if rows != [] && !KeyLe(x.dateKey, rows[0].dateKey) {
      InsertAllAtLeast(key, x, rows[1..]);
    }
  }

  lemma {:induction false} InsertSorted(x: LogRow, rows: seq<LogRow>)
    requires SortedByKey(rows)
    ensures SortedByKey(Insert(x, rows))
    ensures multiset(Insert(x, rows)) == multiset(rows) + multiset{x}
  {
    if rows == [] {
    } else if KeyLe(x.dateKey, rows[0].dateKey) {
      forall k | 0 <= k < |rows| ensures KeyLe(x.dateKey, rows[k].dateKey) {
        if k > 0 {
          KeyLeTransitive(x.dateKey, rows[0].dateKey, rows[k].dateKey);
        }
      }
      SortedCons([x] + rows);
      assert ([x] + rows)[1..] == rows;
    } else {
      KeyLeTotal(x.dateKey, rows[0].dateKey);
      var tail := rows[1..];
      SortedCons(rows);
      InsertSorted(x, tail);
      InsertAllAtLeast(rows[0].dateKey, x, tail);
      var r := [rows[0]] + Insert(x, tail);
      assert r[1..] == Insert(x, tail);
      SortedCons(r);
      assert rows == [rows[0]] + tail;
    }
  }

  /** The sorted rows are in key order and are the same rows. */
  lemma {:induction false} SortByKeySorted(rows: seq<LogRow>)
    ensures SortedByKey(SortByKey(rows))
    ensures multiset(SortByKey(rows)) == multiset(rows)
  {
    if rows != [] {
      SortByKeySorted(rows[1..]);
      InsertSorted(rows[0], SortByKey(rows[1..]));
      assert rows == [rows[0]] + rows[1..];
    }
  }

  /** Sorting rows that are already in key order changes nothing. */
  lemma {:induction false} SortByKeyOfSorted(rows: seq<LogRow>)
    requires SortedByKey(rows)
    ensures SortByKey(rows) == rows
  {
    if rows != [] {
      var tail := rows[1..];
      SortedCons(rows);
      SortByKeyOfSorted(tail);
      if tail != [] {
        assert KeyLe(rows[0].dateKey, tail[0].dateKey);
      }
      assert rows == [rows[0]] + tail;
    }
  }
}

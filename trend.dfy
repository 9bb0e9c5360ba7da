/** The trend view: the table grouped by date and sentiment with each
    group's size, one row per (date, sentiment) pair present in the table,
    in the order a data frame sorts its group keys. */
module Trend {
  import opened Sentiment
  import opened Table
  import Seqs

  datatype Key = Key(date: int, sentiment: Label)

  /** A row of the trend view: the group key and its size. */
  datatype TrendRow = TrendRow(date: int, sentiment: Label, count: nat)

  function KeyOf(r: Record): Key
  {
    Key(r.date, r.sentiment)
  }

  function RowKey(t: TrendRow): Key
  {
    Key(t.date, t.sentiment)
  }

  /** Group keys sort by date, then by the label's name as a string. */
  predicate Before(a: Key, b: Key)
  {
    a.date < b.date || (a.date == b.date && Rank(a.sentiment) < Rank(b.sentiment))
  }

  /** Keys strictly increase, so no key appears twice. */
  predicate Sorted(t: seq<TrendRow>)
  {
    forall i, j :: 0 <= i < j < |t| ==> Before(RowKey(t[i]), RowKey(t[j]))
  }

  function Keys(t: seq<TrendRow>): set<Key>
  {
    set e | e in t :: RowKey(e)
  }

  function RecordKeys(rows: seq<Record>): set<Key>
  {
    set r | r in rows :: KeyOf(r)
  }

  /** The rows of the table that fall into group `k`. */
  function Matching(rows: seq<Record>, k: Key): (r: seq<Record>)
    ensures forall x :: x in r <==> x in rows && KeyOf(x) == k
  {
    Seqs.SelectMember(rows, (x: Record) => KeyOf(x) == k);
    Seqs.Select(rows, (x: Record) => KeyOf(x) == k)
  }

  /** The count the view holds for `k`, summed over every entry with that key
      (0 when there is none). */
  function CountOf(t: seq<TrendRow>, k: Key): nat
  {
    if t == [] then 0 else (if RowKey(t[0]) == k then t[0].count else 0) + CountOf(t[1..], k)
  }

  /** The sum of all counts. */
  function Total(t: seq<TrendRow>): nat
  {
    if t == [] then 0 else t[0].count + Total(t[1..])
  }

  /** Adds one row with key `k` to a sorted view. */
  function Insert(t: seq<TrendRow>, k: Key): seq<TrendRow>
  {
    if t == [] then [TrendRow(k.date, k.sentiment, 1)]
    else if RowKey(t[0]) == k then [t[0].(count := t[0].count + 1)] + t[1..]
    else if Before(k, RowKey(t[0])) then [TrendRow(k.date, k.sentiment, 1)] + t
    else [t[0]] + Insert(t[1..], k)
  }

  /** The grouping of the rows one by one. */
  function Group(rows: seq<Record>): seq<TrendRow>
  {
    if rows == [] then [] else Insert(Group(rows[1..]), KeyOf(rows[0]))
  }

  /** The trend view of a table. Its entries are sorted by key with no key
      twice; there is an entry for a key exactly when some row has that key;
      each count is at least 1 and is the number of rows with that key; and
      the counts add up to the number of rows. */
  function TrendView(rows: seq<Record>): (t: seq<TrendRow>)
    ensures Sorted(t)
    ensures Keys(t) == RecordKeys(rows)
    ensures forall i :: 0 <= i < |t| ==> 1 <= t[i].count == |Matching(rows, RowKey(t[i]))|
    ensures Total(t) == |rows|
  {
    GroupSorted(rows);
    GroupKeys(rows);
    GroupPositive(rows);
    GroupTotal(rows);
    forall i | 0 <= i < |Group(rows)|
      ensures Group(rows)[i].count == |Matching(rows, RowKey(Group(rows)[i]))|
    {
      SortedEntryCount(Group(rows), i);
      GroupCount(rows, RowKey(Group(rows)[i]));
    }
    Group(rows)
  }

  // Insert keeps the view's invariants and adds exactly one to one count.

  lemma {:induction false} InsertKeys(t: seq<TrendRow>, k: Key)
    ensures Keys(Insert(t, k)) == Keys(t) + {k}
  {
    var single := TrendRow(k.date, k.sentiment, 1);
    if t == [] {
      KeysCons(single, []);
    } else {
      assert t == [t[0]] + t[1..];
      KeysCons(t[0], t[1..]);
      if RowKey(t[0]) == k {
        KeysCons(t[0].(count := t[0].count + 1), t[1..]);
      } else if Before(k, RowKey(t[0])) {
        KeysCons(single, t);
      } else {
        InsertKeys(t[1..], k);
        KeysCons(t[0], Insert(t[1..], k));
      }
    }
  }

  lemma KeysCons(e: TrendRow, t: seq<TrendRow>)
    ensures Keys([e] + t) == {RowKey(e)} + Keys(t)
  {
  }

  lemma {:induction false} InsertCount(t: seq<TrendRow>, k: Key, j: Key)
    ensures CountOf(Insert(t, k), j) == CountOf(t, j) + (if j == k then 1 else 0)
  {
    if t != [] {
      var u := Insert(t, k);
      if RowKey(t[0]) == k {
        assert u[1..] == t[1..];
      } else if Before(k, RowKey(t[0])) {
        assert u[1..] == t;
      } else {
        InsertCount(t[1..], k, j);
        assert u[1..] == Insert(t[1..], k);
      }
    }
  }

  lemma {:induction false} InsertTotal(t: seq<TrendRow>, k: Key)
    ensures Total(Insert(t, k)) == Total(t) + 1
  {
    if t != [] {
      var u := Insert(t, k);
      if RowKey(t[0]) == k {
        assert u[1..] == t[1..];
      } else if Before(k, RowKey(t[0])) {
        assert u[1..] == t;
      } else {
        InsertTotal(t[1..], k);
        assert u[1..] == Insert(t[1..], k);
      }
    }
  }

  lemma {:induction false} InsertPositive(t: seq<TrendRow>, k: Key)
    requires forall i :: 0 <= i < |t| ==> t[i].count >= 1
    ensures forall i :: 0 <= i < |Insert(t, k)| ==> Insert(t, k)[i].count >= 1
  {
    if t != [] && RowKey(t[0]) != k && !Before(k, RowKey(t[0])) {
      InsertPositive(t[1..], k);
      var u := Insert(t, k);
      forall i | 0 < i < |u| ensures u[i].count >= 1 {
        assert u[i] == Insert(t[1..], k)[i - 1];
      }
    }
  }

  lemma {:induction false} InsertSorted(t: seq<TrendRow>, k: Key)
    requires Sorted(t)
    ensures Sorted(Insert(t, k))
  {
    if t != [] {
      var u := Insert(t, k);
      if RowKey(t[0]) == k {
        forall i, j | 0 <= i < j < |u| ensures Before(RowKey(u[i]), RowKey(u[j])) {
          assert RowKey(u[i]) == RowKey(t[i]) && RowKey(u[j]) == RowKey(t[j]);
        }
      } else if Before(k, RowKey(t[0])) {
        forall i, j | 0 <= i < j < |u| ensures Before(RowKey(u[i]), RowKey(u[j])) {
          assert u[j] == t[j - 1];
          if i > 0 {
            assert u[i] == t[i - 1];
          } else if j > 1 {
            assert Before(RowKey(t[0]), RowKey(t[j - 1]));
          }
        }
      } else {
        var rest := Insert(t[1..], k);
        InsertSorted(t[1..], k);
        InsertKeys(t[1..], k);
        assert u == [t[0]] + rest;
        forall j | 0 <= j < |rest| ensures Before(RowKey(t[0]), RowKey(rest[j])) {
          assert RowKey(rest[j]) in Keys(rest);
          if RowKey(rest[j]) != k {
            assert RowKey(rest[j]) in Keys(t[1..]);
            var e :| e in t[1..] && RowKey(e) == RowKey(rest[j]);
            var m :| 0 <= m < |t[1..]| && t[1..][m] == e;
            assert t[m + 1] == e;
          }
        }
        forall i, j | 0 <= i < j < |u| ensures Before(RowKey(u[i]), RowKey(u[j])) {
          assert u[j] == rest[j - 1];
          if i > 0 {
            assert u[i] == rest[i - 1];
          }
        }
      }
    }
  }

  /** In a sorted view, the count summed for an entry's key is that entry's count. */
  lemma {:induction false} SortedEntryCount(t: seq<TrendRow>, i: nat)
    requires Sorted(t) && i < |t|
    ensures CountOf(t, RowKey(t[i])) == t[i].count
  {
    if i == 0 {
      AbsentCount(t[1..], RowKey(t[0]));
    } else {
      assert Sorted(t[1..]) by {
        forall a, b | 0 <= a < b < |t[1..]| ensures Before(RowKey(t[1..][a]), RowKey(t[1..][b])) {
          assert t[1..][a] == t[a + 1] && t[1..][b] == t[b + 1];
        }
      }
      SortedEntryCount(t[1..], i - 1);
      assert t[1..][i - 1] == t[i];
    }
  }

  /** No later entry of a sorted view shares the first entry's key. */
  lemma {:induction false} AbsentCount(rest: seq<TrendRow>, k: Key)
    requires forall j :: 0 <= j < |rest| ==> RowKey(rest[j]) != k
    ensures CountOf(rest, k) == 0
  {
    if rest != [] {
      assert RowKey(rest[0]) != k;
      AbsentCount(rest[1..], k);
    }
  }

  // Group keeps the invariants, by induction over the rows.

  lemma {:induction false} GroupSorted(rows: seq<Record>)
    ensures Sorted(Group(rows))
  {
    if rows != [] {
      GroupSorted(rows[1..]);
      InsertSorted(Group(rows[1..]), KeyOf(rows[0]));
    }
  }

  lemma {:induction false} GroupKeys(rows: seq<Record>)
    ensures Keys(Group(rows)) == RecordKeys(rows)
  {
    if rows != [] {
      GroupKeys(rows[1..]);
      InsertKeys(Group(rows[1..]), KeyOf(rows[0]));
      assert rows == [rows[0]] + rows[1..];
      assert RecordKeys(rows) == {KeyOf(rows[0])} + RecordKeys(rows[1..]);
    }
  }

  lemma {:induction false} GroupPositive(rows: seq<Record>)
    ensures forall i :: 0 <= i < |Group(rows)| ==> Group(rows)[i].count >= 1
  {
    if rows != [] {
      GroupPositive(rows[1..]);
      InsertPositive(Group(rows[1..]), KeyOf(rows[0]));
    }
  }

  lemma {:induction false} GroupTotal(rows: seq<Record>)
    ensures Total(Group(rows)) == |rows|
  {
    if rows != [] {
      GroupTotal(rows[1..]);
      InsertTotal(Group(rows[1..]), KeyOf(rows[0]));
    }
  }

  lemma {:induction false} GroupCount(rows: seq<Record>, k: Key)
    ensures CountOf(Group(rows), k) == |Matching(rows, k)|
  {
    if rows != [] {
      GroupCount(rows[1..], k);
      InsertCount(Group(rows[1..]), KeyOf(rows[0]), k);
    }
  }

  /** When no two rows share a date, every group holds exactly one row. */
  lemma DistinctDatesGiveSingletons(rows: seq<Record>)
    requires forall i, j :: 0 <= i < |rows| && 0 <= j < |rows| && i != j ==> rows[i].date != rows[j].date
    ensures forall i :: 0 <= i < |TrendView(rows)| ==> TrendView(rows)[i].count == 1
  {
    var t := TrendView(rows);
    forall i | 0 <= i < |t| ensures t[i].count == 1 {
      MatchingAtMostOne(rows, RowKey(t[i]));
    }
  }

  lemma {:induction false} MatchingAtMostOne(rows: seq<Record>, k: Key)
    requires forall i, j :: 0 <= i < |rows| && 0 <= j < |rows| && i != j ==> rows[i].date != rows[j].date
    ensures |Matching(rows, k)| <= 1
  {
    if rows != [] {
      var p := (x: Record) => KeyOf(x) == k;
      assert Matching(rows, k) == (if p(rows[0]) then [rows[0]] else []) + Matching(rows[1..], k);
      if p(rows[0]) {
        forall x | x in rows[1..] ensures !p(x) {
          var m :| 0 <= m < |rows[1..]| && rows[1..][m] == x;
          assert rows[m + 1] == x;
        }
        Seqs.SelectNone(rows[1..], p);
      } else {
        MatchingAtMostOne(rows[1..], k);
      }
    }
  }
}

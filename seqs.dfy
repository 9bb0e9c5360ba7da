/** Order-preserving selection of the elements of a sequence that satisfy a
    predicate: the boolean-mask indexing a data frame uses for `dropna`,
    for the `isin` filters and for counting the rows of one group. */
module Seqs {

  /** The elements of `s` that satisfy `p`, in their original order. */
  function Select<T>(s: seq<T>, p: T -> bool): (r: seq<T>)
    ensures |r| <= |s|
    ensures forall x :: x in r ==> x in s && p(x)
  {
    if s == [] then []
    else (if p(s[0]) then [s[0]] else []) + Select(s[1..], p)
  }

  /** An element is selected exactly when it occurs in `s` and satisfies `p`. */
  lemma {:induction false} SelectMember<T>(s: seq<T>, p: T -> bool)
    ensures forall x :: x in Select(s, p) <==> x in s && p(x)
  {
    if s != [] {
      SelectMember(s[1..], p);
      forall x | x in s && p(x) ensures x in Select(s, p) {
        if x != s[0] {
          assert x in s[1..];
        }
      }
    }
  }

  /** Selection keeps every copy of a satisfying element and no copy of any
      other element: nothing is lost, duplicated or altered. */
  lemma {:induction false} SelectMultiset<T>(s: seq<T>, p: T -> bool)
    ensures forall x :: multiset(Select(s, p))[x] == if p(x) then multiset(s)[x] else 0
  {
    if s != [] {
      SelectMultiset(s[1..], p);
      assert s == [s[0]] + s[1..];
    }
  }

  /** The positions in `s` of the elements that satisfy `p`, in increasing order. */
  function Positions<T>(s: seq<T>, p: T -> bool): (idx: seq<nat>)
    ensures |idx| == |Select(s, p)|
  {
    if s == [] then []
    else (if p(s[0]) then [0] else []) + Shift(Positions(s[1..], p))
  }

  /** The selection is the subsequence of `s` at the strictly increasing
      positions `idx`, and those positions are exactly the ones whose
      element satisfies `p`. */
  lemma SelectIndices<T>(s: seq<T>, p: T -> bool) returns (idx: seq<nat>)
    ensures |idx| == |Select(s, p)|
    ensures forall j :: 0 <= j < |idx| ==> idx[j] < |s| && Select(s, p)[j] == s[idx[j]]
    ensures forall j, k :: 0 <= j < k < |idx| ==> idx[j] < idx[k]
    ensures forall i :: 0 <= i < |s| ==> (p(s[i]) <==> i in idx)
  {
    idx := Positions(s, p);
    PositionsPick(s, p);
    PositionsIncrease(s, p);
    PositionsExact(s, p);
  }

  lemma {:induction false} PositionsPick<T>(s: seq<T>, p: T -> bool)
    ensures forall j :: 0 <= j < |Positions(s, p)| ==>
      Positions(s, p)[j] < |s| && Select(s, p)[j] == s[Positions(s, p)[j]]
  {
    if s != [] {
      PositionsPick(s[1..], p);
      var rest := Positions(s[1..], p);
      var shifted := Shift(rest);
      var tail := Select(s[1..], p);
      forall j | 0 <= j < |shifted| ensures shifted[j] < |s| && tail[j] == s[shifted[j]] {
        assert s[shifted[j]] == s[1..][rest[j]];
      }
      if p(s[0]) {
        var idx := [0] + shifted;
        assert Select(s, p) == [s[0]] + tail;
        forall j | 0 <= j < |idx| ensures idx[j] < |s| && Select(s, p)[j] == s[idx[j]] {
          if j > 0 {
            assert idx[j] == shifted[j - 1];
            assert Select(s, p)[j] == tail[j - 1];
          }
        }
      } else {
        assert Select(s, p) == tail;
      }
    }
  }

  lemma {:induction false} PositionsIncrease<T>(s: seq<T>, p: T -> bool)
    ensures forall j, k :: 0 <= j < k < |Positions(s, p)| ==> Positions(s, p)[j] < Positions(s, p)[k]
  {
    if s != [] {
      PositionsIncrease(s[1..], p);
      var shifted := Shift(Positions(s[1..], p));
      if p(s[0]) {
        PrependZero(shifted);
      }
    }
  }

  lemma {:induction false} PositionsExact<T>(s: seq<T>, p: T -> bool)
    ensures forall i :: 0 <= i < |s| ==> (p(s[i]) <==> i in Positions(s, p))
  {
    if s != [] {
      PositionsExact(s[1..], p);
      var rest := Positions(s[1..], p);
      forall i | 0 < i < |s| ensures p(s[i]) <==> i in Shift(rest) {
        assert s[i] == s[1..][i - 1];
        ShiftMember(rest, i);
      }
      ShiftMember(rest, 0);
    }
  }

  /** Every position moved one place to the right. */
  function Shift(idx: seq<nat>): (r: seq<nat>)
    ensures |r| == |idx|
    ensures forall j :: 0 <= j < |idx| ==> r[j] == idx[j] + 1
  {
    seq(|idx|, j requires 0 <= j < |idx| => idx[j] + 1)
  }

  /** Shifted positions stay increasing, and position 0 can go in front of them. */
  lemma PrependZero(shifted: seq<nat>)
    requires forall j :: 0 <= j < |shifted| ==> shifted[j] > 0
    requires forall j, k :: 0 <= j < k < |shifted| ==> shifted[j] < shifted[k]
    ensures forall j, k :: 0 <= j < k < |[0] + shifted| ==> ([0] + shifted)[j] < ([0] + shifted)[k]
  {
  }

  lemma ShiftMember(idx: seq<nat>, i: nat)
    ensures i in Shift(idx) <==> i > 0 && i - 1 in idx
  {
  }

  /** Selecting with a predicate that every element satisfies changes nothing. */
  lemma {:induction false} SelectAll<T>(s: seq<T>, p: T -> bool)
    requires forall x :: x in s ==> p(x)
    ensures Select(s, p) == s
  {
    if s != [] {
      assert forall x :: x in s[1..] ==> x in s;
      SelectAll(s[1..], p);
    }
  }

  /** Selecting with a predicate that no element satisfies gives nothing. */
  lemma {:induction false} SelectNone<T>(s: seq<T>, p: T -> bool)
    requires forall x :: x in s ==> !p(x)
    ensures Select(s, p) == []
  {
    if s != [] {
      assert forall x :: x in s[1..] ==> x in s;
      SelectNone(s[1..], p);
    }
  }
}

/** Insertion sort under an order given as a function value, shared by the invoice list
    (`ORDER BY issue_date` / `total`) and the client list (`ORDER BY name`). Both queries
    sort in the database; the model sorts by insertion, which keeps rows that tie in
    table order. */
module Sorting {

  /** Every pair is related one way or the other. */
  ghost predicate Total<T(!new)>(le: (T, T) -> bool) {
    forall a, b :: le(a, b) || le(b, a)
  }

  ghost predicate Transitive<T(!new)>(le: (T, T) -> bool) {
    forall a, b, c :: le(a, b) && le(b, c) ==> le(a, c)
  }

  predicate SortedBy<T>(s: seq<T>, le: (T, T) -> bool) {
    forall i, j :: 0 <= i < j < |s| ==> le(s[i], s[j])
  }

  /** x placed before the first element it may precede. */
  function Insert<T(==)>(x: T, s: seq<T>, le: (T, T) -> bool): (r: seq<T>)
    ensures multiset(r) == multiset(s) + multiset{x}
    ensures |r| == |s| + 1
  {
    if s == [] || le(x, s[0]) then [x] + s
    else
      assert s == [s[0]] + s[1..];
      [s[0]] + Insert(x, s[1..], le)
  }

  /** Sorting by insertion from the back: elements that tie keep their order. */
  function InsertionSort<T(==)>(s: seq<T>, le: (T, T) -> bool): (r: seq<T>)
    ensures multiset(r) == multiset(s)
    ensures |r| == |s|
  {
    if s == [] then []
    else
      assert s == [s[0]] + s[1..];
      Insert(s[0], InsertionSort(s[1..], le), le)
  }

  /** An element that may precede every element of a sorted sequence can go in front. */
  lemma ConsSorted<T>(y: T, t: seq<T>, le: (T, T) -> bool)
    requires SortedBy(t, le)
    requires forall k :: 0 <= k < |t| ==> le(y, t[k])
    ensures SortedBy([y] + t, le)
  {
    var r := [y] + t;
    forall i, j | 0 <= i < j < |r| ensures le(r[i], r[j]) {
      assert r[j] == t[j - 1];
      if i > 0 {
        assert r[i] == t[i - 1];
      }
    }
  }

  /** An element that may precede the head of a sorted sequence may precede all of it. */
  lemma PrecedesAll<T(!new)>(x: T, s: seq<T>, le: (T, T) -> bool)
    requires Transitive(le)
    requires SortedBy(s, le) && s != [] && le(x, s[0])
    ensures forall k :: 0 <= k < |s| ==> le(x, s[k])
  {
    forall k | 0 < k < |s| ensures le(x, s[k]) {
      assert le(s[0], s[k]);
    }
  }

  /** The head of a sorted sequence may precede every element of a rearrangement of its
      tail with one element added. */
  lemma HeadPrecedesInserted<T>(s: seq<T>, x: T, tail: seq<T>, le: (T, T) -> bool)
    requires SortedBy(s, le) && s != [] && le(s[0], x)
    requires multiset(tail) == multiset(s[1..]) + multiset{x}
    ensures forall k :: 0 <= k < |tail| ==> le(s[0], tail[k])
  {
    forall k | 0 <= k < |tail| ensures le(s[0], tail[k]) {
      var y := tail[k];
      assert y in multiset(tail);
      if y != x {
        assert y in multiset(s[1..]);
        var m :| 0 <= m < |s[1..]| && s[1..][m] == y;
        assert s[m + 1] == y;
      }
    }
  }

  lemma TailSorted<T>(s: seq<T>, le: (T, T) -> bool)
    requires SortedBy(s, le) && s != []
    ensures SortedBy(s[1..], le)
  {
    forall i, j | 0 <= i < j < |s[1..]| ensures le(s[1..][i], s[1..][j]) {
      assert s[1..][i] == s[i + 1] && s[1..][j] == s[j + 1];
    }
  }

  lemma {:induction false} InsertKeepsSorted<T(!new)>(x: T, s: seq<T>, le: (T, T) -> bool)
    requires Total(le) && Transitive(le)
    requires SortedBy(s, le)
    ensures SortedBy(Insert(x, s, le), le)
    decreases |s|
  {
    if s == [] {
      assert Insert(x, s, le) == [x];
    } else if le(x, s[0]) {
      PrecedesAll(x, s, le);
      ConsSorted(x, s, le);
    } else {
      assert le(s[0], x);
      var tail := Insert(x, s[1..], le);
      TailSorted(s, le);
      InsertKeepsSorted(x, s[1..], le);
      HeadPrecedesInserted(s, x, tail, le);
      ConsSorted(s[0], tail, le);
    }
  }

  /** Under a total, transitive order the sort puts the elements in order. */
  lemma {:induction false} InsertionSortIsSorted<T(!new)>(s: seq<T>, le: (T, T) -> bool)
    requires Total(le) && Transitive(le)
    ensures SortedBy(InsertionSort(s, le), le)
    decreases |s|
  {
    if s != [] {
      InsertionSortIsSorted(s[1..], le);
      InsertKeepsSorted(s[0], InsertionSort(s[1..], le), le);
    }
  }

  /** Any contiguous run of a sorted sequence is sorted. */
  lemma SliceSorted<T>(s: seq<T>, lo: nat, hi: nat, le: (T, T) -> bool)
    requires SortedBy(s, le) && lo <= hi <= |s|
    ensures SortedBy(s[lo..hi], le)
  {
    var r := s[lo..hi];
    forall i, j | 0 <= i < j < |r| ensures le(r[i], r[j]) {
      assert r[i] == s[lo + i] && r[j] == s[lo + j];
    }
  }
}

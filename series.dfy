/**
  A pandas price series, as the price engine and the slot planner use it:
  a sequence of (timestamp, price) entries in index order. Grouping by a
  day key follows `Series.groupby` (groups in ascending key order, each
  keeping index order); sorting follows `sort_values` (ascending, and here
  stable for equal values).
*/
module Series {

  datatype Entry = Entry(time: int, price: real)

  type Series = seq<Entry>

  function Times(s: Series): (r: seq<int>)
    ensures |r| == |s| && forall i :: 0 <= i < |s| ==> r[i] == s[i].time
  {
    if s == [] then [] else [s[0].time] + Times(s[1..])
  }

  // ---------------------------------------------------------------------
  // Selecting and grouping by a day key

  /** The entries satisfying `p`, in index order (a boolean mask on a series). */
  function Filter(s: Series, p: Entry -> bool): (r: Series)
    ensures forall e :: e in r ==> e in s && p(e)
    ensures forall e :: e in s && p(e) ==> e in r
    ensures |r| <= |s|
  {
    if s == [] then [] else if p(s[0]) then [s[0]] + Filter(s[1..], p) else Filter(s[1..], p)
  }

  /** The first entry kept by a mask is the first entry of the series
      satisfying it. */
  lemma {:induction false} FilterHead(s: Series, p: Entry -> bool)
    requires Filter(s, p) != []
    ensures exists i :: 0 <= i < |s| && s[i] == Filter(s, p)[0] && forall j :: 0 <= j < i ==> !p(s[j])
    decreases |s|
  {
    if !p(s[0]) {
      FilterHead(s[1..], p);
      var i :| 0 <= i < |s| - 1 && s[1..][i] == Filter(s, p)[0] && forall j :: 0 <= j < i ==> !p(s[1..][j]);
      assert s[i + 1] == Filter(s, p)[0];
      forall j | 0 <= j < i + 1 ensures !p(s[j]) {
        if j > 0 { assert s[j] == s[1..][j - 1]; }
      }
    }
  }

  /** Filtering twice is filtering once by both conditions. */
  lemma {:induction false} FilterFilter(s: Series, p: Entry -> bool, q: Entry -> bool, pq: Entry -> bool)
    requires forall e :: pq(e) == (p(e) && q(e))
    ensures Filter(Filter(s, p), q) == Filter(s, pq)
    decreases |s|
  {
    if s != [] {
      FilterFilter(s[1..], p, q, pq);
      var rest := Filter(s[1..], p);
      if p(s[0]) {
        assert ([s[0]] + rest)[1..] == rest;
      }
    }
  }

  /** The entries whose time has day key `k`, in index order. */
  function OnKey(s: Series, key: int -> int, k: int): (r: Series)
    ensures forall e :: e in r ==> e in s && key(e.time) == k
    ensures forall e :: e in s && key(e.time) == k ==> e in r
    ensures |r| <= |s|
  {
    Filter(s, (e: Entry) => key(e.time) == k)
  }

  predicate Increasing(ks: seq<int>) {
    forall i, j :: 0 <= i < j < |ks| ==> ks[i] < ks[j]
  }

  function InsertKey(k: int, ks: seq<int>): (r: seq<int>)
    requires Increasing(ks)
    ensures Increasing(r)
    ensures forall x :: x in r <==> x == k || x in ks
  {
    if ks == [] then [k]
    else if k < ks[0] then [k] + ks
    else if k == ks[0] then ks
    else
      var rest := InsertKey(k, ks[1..]);
      assert forall x :: x in rest ==> ks[0] < x by {
        forall x | x in rest ensures ks[0] < x {
          if x != k {
            var j :| 0 <= j < |ks| - 1 && ks[1..][j] == x;
            assert ks[j + 1] == x;
          }
        }
      }
      var r := [ks[0]] + rest;
      assert forall i, j :: 0 <= i < j < |r| ==> r[i] < r[j] by {
        forall i, j | 0 <= i < j < |r| ensures r[i] < r[j] {
          if i > 0 {
            assert r[i] == rest[i - 1] && r[j] == rest[j - 1];
          } else {
            assert r[j] == rest[j - 1] && r[j] in rest;
          }
        }
      }
      r
  }

  /** The set of day keys present in a series. */
  function KeySet(s: Series, key: int -> int): set<int> {
    if s == [] then {} else {key(s[0].time)} + KeySet(s[1..], key)
  }

  /** A key is present exactly when some entry has it. */
  lemma {:induction false} KeySetMembers(s: Series, key: int -> int, x: int)
    ensures x in KeySet(s, key) <==> exists i :: 0 <= i < |s| && key(s[i].time) == x
    decreases |s|
  {
    if s != [] {
      KeySetMembers(s[1..], key, x);
      if x in KeySet(s[1..], key) {
        var i :| 0 <= i < |s| - 1 && key(s[1..][i].time) == x;
        assert key(s[i + 1].time) == x;
      }
      if exists i :: 0 <= i < |s| && key(s[i].time) == x {
        var i :| 0 <= i < |s| && key(s[i].time) == x;
        if i > 0 { assert key(s[1..][i - 1].time) == x; }
      }
    }
  }

  /** The distinct day keys of a series, ascending: the keys of its groups. */
  function GroupKeys(s: Series, key: int -> int): (r: seq<int>)
    ensures Increasing(r)
    ensures forall x :: x in r <==> x in KeySet(s, key)
  {
    if s == [] then [] else InsertKey(key(s[0].time), GroupKeys(s[1..], key))
  }

  /** `[g[1] for g in series.groupby(key)]`: one series per day key, keys ascending. */
  function Groups(s: Series, key: int -> int): (r: seq<Series>)
    ensures |r| == |GroupKeys(s, key)|
    ensures forall i :: 0 <= i < |r| ==> r[i] == OnKey(s, key, GroupKeys(s, key)[i])
  {
    var ks := GroupKeys(s, key);
    seq(|ks|, i requires 0 <= i < |ks| => OnKey(s, key, ks[i]))
  }

  /** Every entry falls in exactly one group, the one of its own day key,
      and no group is empty. */
  lemma GroupsPartition(s: Series, key: int -> int, e: Entry)
    requires e in s
    ensures exists i :: 0 <= i < |Groups(s, key)| && e in Groups(s, key)[i]
    ensures forall i :: 0 <= i < |Groups(s, key)| && e in Groups(s, key)[i] ==>
              GroupKeys(s, key)[i] == key(e.time)
    ensures forall i :: 0 <= i < |Groups(s, key)| ==> Groups(s, key)[i] != []
  {
    var ks := GroupKeys(s, key);
    var n :| 0 <= n < |s| && s[n] == e;
    KeySetMembers(s, key, key(e.time));
    var i :| 0 <= i < |ks| && ks[i] == key(e.time);
    assert e in Groups(s, key)[i];
    forall j | 0 <= j < |ks| ensures Groups(s, key)[j] != [] {
      KeySetMembers(s, key, ks[j]);
      var m :| 0 <= m < |s| && key(s[m].time) == ks[j];
      assert s[m] in OnKey(s, key, ks[j]);
    }
  }

  // ---------------------------------------------------------------------
  // Stable ascending sort by a key (`sort_values`)

  ghost predicate SortedBy<T>(s: seq<T>, key: T -> real) {
    forall i, j :: 0 <= i < j < |s| ==> key(s[i]) <= key(s[j])
  }

  /** Putting an element no dearer than the head in front keeps the order. */
  lemma ConsSorted<T>(y: T, t: seq<T>, key: T -> real)
    requires SortedBy(t, key) && (t != [] ==> key(y) <= key(t[0]))
    ensures SortedBy([y] + t, key)
  {
    var r := [y] + t;
    forall i, j | 0 <= i < j < |r| ensures key(r[i]) <= key(r[j]) {
      if i > 0 {
        assert r[i] == t[i - 1] && r[j] == t[j - 1];
      } else if j > 1 {
        assert key(t[0]) <= key(t[j - 1]);
      }
    }
  }

  /** Insert `x` before the first element dearer than it. */
  function InsertBy<T>(x: T, s: seq<T>, key: T -> real): (r: seq<T>)
    ensures |r| == |s| + 1
  {
    if s == [] || key(x) <= key(s[0]) then [x] + s
    else [s[0]] + InsertBy(x, s[1..], key)
  }

  /** Inserting into a sorted sequence keeps it sorted, and the head is
      either `x` or the old head. */
  lemma {:induction false} InsertBySorted<T>(x: T, s: seq<T>, key: T -> real)
    requires SortedBy(s, key)
    ensures SortedBy(InsertBy(x, s, key), key)
    ensures InsertBy(x, s, key)[0] == x || (s != [] && InsertBy(x, s, key)[0] == s[0])
    decreases |s|
  {
    if s == [] || key(x) <= key(s[0]) {
      ConsSorted(x, s, key);
    } else {
      var tail := s[1..];
      assert SortedBy(tail, key) by {
        forall i, j | 0 <= i < j < |tail| ensures key(tail[i]) <= key(tail[j]) {
          assert tail[i] == s[i + 1] && tail[j] == s[j + 1];
        }
      }
      InsertBySorted(x, tail, key);
      var rest := InsertBy(x, tail, key);
      assert key(s[0]) <= key(rest[0]) by {
        if rest[0] != x { assert rest[0] == s[1]; }
      }
      ConsSorted(s[0], rest, key);
    }
  }

  /** Inserting adds exactly one occurrence of `x`. */
  lemma {:induction false} InsertByMultiset<T>(x: T, s: seq<T>, key: T -> real)
    ensures multiset(InsertBy(x, s, key)) == multiset(s) + multiset{x}
    decreases |s|
  {
    if s != [] && key(x) > key(s[0]) {
      InsertByMultiset(x, s[1..], key);
      assert s == [s[0]] + s[1..];
    }
  }

  /** Stable insertion sort, ascending by `key`. */
  function SortBy<T>(s: seq<T>, key: T -> real): (r: seq<T>)
    ensures SortedBy(r, key)
    ensures multiset(r) == multiset(s) && |r| == |s|
  {
    if s == [] then []
    else
      var sorted := SortBy(s[1..], key);
      InsertBySorted(s[0], sorted, key);
      InsertByMultiset(s[0], sorted, key);
      assert s == [s[0]] + s[1..];
      InsertBy(s[0], sorted, key)
  }

  function PriceOf(e: Entry): real { e.price }

  function TimeKey(t: int): real { t as real }

  // ---------------------------------------------------------------------
  // Counting

  function Count<T>(s: seq<T>, p: T -> bool): (n: nat)
    ensures n <= |s|
  {
    if s == [] then 0 else (if p(s[0]) then 1 else 0) + Count(s[1..], p)
  }

  lemma {:induction false} CountConcat<T>(a: seq<T>, b: seq<T>, p: T -> bool)
    ensures Count(a + b, p) == Count(a, p) + Count(b, p)
    decreases |a|
  {
    if a != [] {
      assert (a + b)[0] == a[0];
      assert (a + b)[1..] == a[1..] + b;
      assert Count(a + b, p) == (if p(a[0]) then 1 else 0) + Count(a[1..] + b, p);
      CountConcat(a[1..], b, p);
    } else {
      assert a + b == b;
    }
  }

  lemma {:induction false} CountAll<T>(s: seq<T>, p: T -> bool)
    requires forall i :: 0 <= i < |s| ==> p(s[i])
    ensures Count(s, p) == |s|
    decreases |s|
  {
    if s != [] {
      CountAll(s[1..], p);
    }
  }

  lemma {:induction false} CountNone<T>(s: seq<T>, p: T -> bool)
    requires forall i :: 0 <= i < |s| ==> !p(s[i])
    ensures Count(s, p) == 0
    decreases |s|
  {
    if s != [] {
      CountNone(s[1..], p);
    }
  }

  /** The count of a sequence splits around position `k`. */
  lemma CountSplit<T>(s: seq<T>, k: nat, p: T -> bool)
    requires k < |s|
    ensures Count(s, p) == Count(s[..k], p) + (if p(s[k]) then 1 else 0) + Count(s[k + 1..], p)
  {
    var front, back := s[..k], s[k..];
    assert s == front + back;
    CountConcat(front, back, p);
    assert back[0] == s[k] && back[1..] == s[k + 1..];
  }

  /** Inserting `x` adds one to the count exactly when `x` matches. */
  lemma {:induction false} CountInsertBy<T>(x: T, s: seq<T>, key: T -> real, p: T -> bool)
    ensures Count(InsertBy(x, s, key), p) == Count(s, p) + (if p(x) then 1 else 0)
    decreases |s|
  {
    if s == [] || key(x) <= key(s[0]) {
      assert ([x] + s)[0] == x && ([x] + s)[1..] == s;
    } else {
      var rest := InsertBy(x, s[1..], key);
      CountInsertBy(x, s[1..], key, p);
      assert ([s[0]] + rest)[0] == s[0] && ([s[0]] + rest)[1..] == rest;
    }
  }

  /** Sorting keeps every count: the sorted sequence has as many elements
      matching `p` as the original. */
  lemma {:induction false} CountSortBy<T>(s: seq<T>, key: T -> real, p: T -> bool)
    ensures Count(SortBy(s, key), p) == Count(s, p)
    decreases |s|
  {
    if s != [] {
      CountSortBy(s[1..], key, p);
      CountInsertBy(s[0], SortBy(s[1..], key), key, p);
    }
  }
}

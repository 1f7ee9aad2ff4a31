/** The shape shared by the listing queries (SELECT ... WHERE ... ORDER BY ... LIMIT ... OFFSET):
    the rows of a table as a sequence of (id, row) entries, a filter, a sort under a
    total preorder, and a page. A query's ORDER BY leaves the order of ties open; the
    model fixes one order and proves every property for any order the comparator allows. */
module Listing {

  lemma Inhabited(s: set<int>)
    requires s != {}
    ensures exists x :: x in s
  {
    if forall x :: x !in s {
      assert false;
    }
  }

  /** `m` is the least element of `s`. */
  predicate IsLeast(s: set<int>, m: int)
  {
    m in s && forall k :: k in s ==> m <= k
  }

  /** A non-empty set of ids has exactly one least element. */
  lemma {:induction false} LeastExists(s: set<int>)
    requires s != {}
    ensures exists m :: IsLeast(s, m)
    ensures forall m1, m2 :: IsLeast(s, m1) && IsLeast(s, m2) ==> m1 == m2
    decreases |s|
  {
    Inhabited(s);
    var x :| x in s;
    var t := s - {x};
    if t == {} {
      assert s == {x};
      assert IsLeast(s, x);
    } else {
      LeastExists(t);
      var m :| IsLeast(t, m);
      assert forall k :: k in s ==> k == x || k in t;
      if x < m {
        assert IsLeast(s, x);
      } else {
        assert IsLeast(s, m);
      }
    }
  }

  /** The keys of a table in increasing order. */
  function SortedKeys(s: set<int>): (r: seq<int>)
    ensures |r| == |s|
    ensures forall i, j :: 0 <= i < j < |r| ==> r[i] < r[j]
    ensures forall k :: k in s <==> k in r
    decreases |s|
  {
    if s == {} then []
    else
      LeastExists(s);
      var m :| IsLeast(s, m);
      var rest := SortedKeys(s - {m});
      assert |s - {m}| == |s| - 1;
      [m] + rest
  }

  /** Every row of a table once, paired with its id, in increasing id order. */
  function Entries<T>(m: map<int, T>): (r: seq<(int, T)>)
    ensures |r| == |m|
    ensures forall i :: 0 <= i < |r| ==> r[i].0 in m && r[i].1 == m[r[i].0]
    ensures forall i, j :: 0 <= i < j < |r| ==> r[i].0 < r[j].0
    ensures forall k :: k in m ==> (k, m[k]) in r
  {
    EntriesAlong(m, SortedKeys(m.Keys))
  }

  /** An entry is in the entry sequence exactly when it pairs an id of the table with its row. */
  lemma InEntries<T>(m: map<int, T>, e: (int, T))
    ensures e in Entries(m) <==> e.0 in m && e.1 == m[e.0]
  {
    var es := Entries(m);
    if e in es {
      var i :| 0 <= i < |es| && es[i] == e;
    }
  }

  function EntriesAlong<T>(m: map<int, T>, ks: seq<int>): (r: seq<(int, T)>)
    requires |ks| == |m|
    requires forall i, j :: 0 <= i < j < |ks| ==> ks[i] < ks[j]
    requires forall k :: k in m.Keys <==> k in ks
    ensures |r| == |m|
    ensures forall i :: 0 <= i < |r| ==> r[i].0 in m && r[i].1 == m[r[i].0]
    ensures forall i, j :: 0 <= i < j < |r| ==> r[i].0 < r[j].0
    ensures forall k :: k in m ==> (k, m[k]) in r
  {
    assert forall i :: 0 <= i < |ks| ==> ks[i] in m;
    var r := seq(|ks|, i requires 0 <= i < |ks| && ks[i] in m => (ks[i], m[ks[i]]));
    assert forall i :: 0 <= i < |r| ==> r[i].0 == ks[i];
    assert forall k :: k in m ==> (k, m[k]) in r by {
      forall k | k in m ensures (k, m[k]) in r {
        assert k in ks;
        var i :| 0 <= i < |ks| && ks[i] == k;
        assert r[i] == (k, m[k]);
      }
    }
    r
  }

  /** The rows of `s` that satisfy `p`, in their original order. */
  function Filter<T(!new)>(s: seq<T>, p: T -> bool): (r: seq<T>)
    ensures |r| <= |s|
    ensures forall x :: x in r <==> x in s && p(x)
  {
    if s == [] then []
    else
      assert s == [s[0]] + s[1..];
      (if p(s[0]) then [s[0]] else []) + Filter(s[1..], p)
  }

  /** A filter keeps each satisfying row as often as it occurs, and no other row. */
  lemma {:induction false} FilterCounts<T(!new)>(s: seq<T>, p: T -> bool)
    ensures forall x :: multiset(Filter(s, p))[x] == if p(x) then multiset(s)[x] else 0
  {
    if s != [] {
      FilterCounts(s[1..], p);
      assert s == [s[0]] + s[1..];
    }
  }

  ghost predicate TotalPreorder<T(!new)>(le: (T, T) -> bool)
  {
    && (forall a, b :: le(a, b) || le(b, a))
    && (forall a, b, c :: le(a, b) && le(b, c) ==> le(a, c))
  }

  predicate SortedBy<T>(s: seq<T>, le: (T, T) -> bool)
  {
    forall i, j :: 0 <= i < j < |s| ==> le(s[i], s[j])
  }

  function Insert<T(!new)>(x: T, s: seq<T>, le: (T, T) -> bool): (r: seq<T>)
    requires TotalPreorder(le) && SortedBy(s, le)
    ensures SortedBy(r, le)
    ensures multiset(r) == multiset(s) + multiset{x}
    ensures |r| == |s| + 1
  {
    if s == [] then [x]
    else if le(x, s[0]) then
      assert SortedBy([x] + s, le) by {
        BelowHead(x, s, le);
        SortedCons(x, s, le);
      }
      [x] + s
    else
      var rest := Insert(x, s[1..], le);
      assert SortedBy([s[0]] + rest, le) by {
        HeadLeast(s, le);
        assert le(s[0], x);
        assert forall z :: z in multiset(rest) ==> le(s[0], z);
        SortedCons(s[0], rest, le);
      }
      assert multiset([s[0]] + rest) == multiset(s) + multiset{x} by {
        assert s == [s[0]] + s[1..];
      }
      [s[0]] + rest
  }

  /** A row placed before a sorted sequence keeps it sorted when it is below every row. */
  lemma SortedCons<T>(y: T, rest: seq<T>, le: (T, T) -> bool)
    requires SortedBy(rest, le)
    requires forall z :: z in multiset(rest) ==> le(y, z)
    ensures SortedBy([y] + rest, le)
  {
    var r := [y] + rest;
    forall i, j | 0 <= i < j < |r| ensures le(r[i], r[j]) {
      assert r[j] == rest[j - 1];
      if i == 0 {
        assert rest[j - 1] in multiset(rest);
      } else {
        assert r[i] == rest[i - 1];
      }
    }
  }

  /** The head of a sorted sequence is below every later row. */
  lemma HeadLeast<T>(s: seq<T>, le: (T, T) -> bool)
    requires SortedBy(s, le) && s != []
    ensures forall z :: z in multiset(s[1..]) ==> le(s[0], z)
  {
    forall z | z in multiset(s[1..]) ensures le(s[0], z) {
      var j :| 0 <= j < |s[1..]| && s[1..][j] == z;
      assert s[j + 1] == z;
    }
  }

  /** A row below the head of a sorted sequence is below every row of it. */
  lemma BelowHead<T(!new)>(x: T, s: seq<T>, le: (T, T) -> bool)
    requires TotalPreorder(le) && SortedBy(s, le) && s != [] && le(x, s[0])
    ensures forall z :: z in multiset(s) ==> le(x, z)
  {
    HeadLeast(s, le);
    assert s == [s[0]] + s[1..];
    forall z | z in multiset(s) ensures le(x, z) {
      if z != s[0] {
        assert z in multiset(s[1..]);
      }
    }
  }

  /** Rows of `s` reordered so that `le` holds between every earlier and later row. */
  function Sort<T(!new)>(s: seq<T>, le: (T, T) -> bool): (r: seq<T>)
    requires TotalPreorder(le)
    ensures SortedBy(r, le)
    ensures multiset(r) == multiset(s)
    ensures |r| == |s|
  {
    if s == [] then []
    else
      assert s == [s[0]] + s[1..];
      Insert(s[0], Sort(s[1..], le), le)
  }

  /** LIMIT `limit` OFFSET `offset`. */
  function Page<T>(s: seq<T>, offset: nat, limit: nat): (r: seq<T>)
    ensures |r| == if offset >= |s| then 0 else if |s| - offset < limit then |s| - offset else limit
    ensures forall i :: 0 <= i < |r| ==> r[i] == s[offset + i]
  {
    if offset >= |s| then []
    else if offset + limit <= |s| then s[offset..offset + limit]
    else s[offset..]
  }

  /** The first `k` rows of a sorted sequence are the `k` least: any row left out is
      no smaller than every row kept. */
  lemma TopIsLeast<T>(s: seq<T>, le: (T, T) -> bool, k: nat, x: T)
    requires SortedBy(s, le) && x in s && x !in Page(s, 0, k)
    ensures |Page(s, 0, k)| == k
    ensures forall y :: y in Page(s, 0, k) ==> le(y, x)
  {
    var i :| 0 <= i < |s| && s[i] == x;
    var p := Page(s, 0, k);
    assert forall j :: 0 <= j < |p| ==> p[j] == s[j];
    assert !(i < |p|);
    forall y | y in p ensures le(y, x) {
      var j :| 0 <= j < |p| && p[j] == y;
      assert s[j] == y;
    }
  }

  /** A query without LIMIT: the rows satisfying `p`, each as often as in `s`, sorted. */
  lemma SortedFilter<T(!new)>(s: seq<T>, p: T -> bool, le: (T, T) -> bool)
    requires TotalPreorder(le)
    ensures SortedBy(Sort(Filter(s, p), le), le)
    ensures forall x :: x in Sort(Filter(s, p), le) <==> x in s && p(x)
    ensures forall x :: multiset(Sort(Filter(s, p), le))[x] <= multiset(s)[x]
  {
    var f := Filter(s, p);
    var r := Sort(f, le);
    FilterCounts(s, p);
    forall x ensures x in r <==> x in s && p(x) {
      assert x in r <==> x in multiset(r);
      assert x in f <==> x in multiset(f);
    }
  }

  /** LIMIT k over a sorted sequence: at most k rows, still sorted, all from the sequence;
      a row is left out only when k rows, none after it in the order, are returned. */
  lemma TopK<T>(sorted: seq<T>, le: (T, T) -> bool, k: nat)
    requires SortedBy(sorted, le)
    ensures |Page(sorted, 0, k)| <= k
    ensures SortedBy(Page(sorted, 0, k), le)
    ensures forall x :: x in Page(sorted, 0, k) ==> x in sorted
    ensures forall x :: x in sorted && x !in Page(sorted, 0, k) ==>
      |Page(sorted, 0, k)| == k && forall y :: y in Page(sorted, 0, k) ==> le(y, x)
  {
    var r := Page(sorted, 0, k);
    assert forall i :: 0 <= i < |r| ==> r[i] == sorted[i];
    forall x | x in sorted && x !in r ensures |r| == k && forall y :: y in r ==> le(y, x) {
      TopIsLeast(sorted, le, k, x);
    }
  }

  /** Any page of a sorted sequence is sorted and holds rows of the sequence, at most
      `limit` of them. */
  lemma PageOfSorted<T>(sorted: seq<T>, le: (T, T) -> bool, offset: nat, limit: nat)
    requires SortedBy(sorted, le)
    ensures |Page(sorted, offset, limit)| <= limit
    ensures SortedBy(Page(sorted, offset, limit), le)
    ensures forall x :: x in Page(sorted, offset, limit) ==> x in sorted
  {
    var r := Page(sorted, offset, limit);
    forall x | x in r ensures x in sorted {
      var i :| 0 <= i < |r| && r[i] == x;
      assert sorted[offset + i] == x;
    }
  }

  /** Consecutive pages of one sequence put together are the page spanning both: paging
      one sequence with a fixed limit and growing offsets neither skips nor repeats a row. */
  lemma PagesTile<T>(s: seq<T>, offset: nat, a: nat, b: nat)
    ensures Page(s, offset, a) + Page(s, offset + a, b) == Page(s, offset, a + b)
  {
    var l := Page(s, offset, a);
    var r := Page(s, offset + a, b);
    var w := Page(s, offset, a + b);
    assert |l + r| == |w|;
    forall i | 0 <= i < |w| ensures (l + r)[i] == w[i] {
      if i >= |l| {
        assert (l + r)[i] == r[i - |l|];
      }
    }
  }

  /** The ids of the rows of `es` that satisfy `p`. */
  function KeysWhere<T(!new)>(es: seq<(int, T)>, p: ((int, T)) -> bool): (ks: set<int>)
    ensures forall e :: e in es && p(e) ==> e.0 in ks
    ensures forall k :: k in ks ==> exists i :: 0 <= i < |es| && es[i].0 == k && p(es[i])
  {
    if es == [] then {}
    else
      var rest := KeysWhere(es[1..], p);
      assert forall k :: k in rest ==> exists i :: 0 <= i < |es| && es[i].0 == k && p(es[i]) by {
        forall k | k in rest ensures exists i :: 0 <= i < |es| && es[i].0 == k && p(es[i]) {
          var j :| 0 <= j < |es[1..]| && es[1..][j].0 == k && p(es[1..][j]);
          assert es[j + 1] == es[1..][j];
        }
      }
      (if p(es[0]) then {es[0].0} else {}) + rest
  }

  /** Filtering rows with distinct, increasing ids keeps one row per id that passes. */
  lemma {:induction false} FilterKeyCount<T(!new)>(es: seq<(int, T)>, p: ((int, T)) -> bool)
    requires forall i, j :: 0 <= i < j < |es| ==> es[i].0 < es[j].0
    ensures |Filter(es, p)| == |KeysWhere(es, p)|
  {
    if es != [] {
      var rest := es[1..];
      FilterKeyCount(rest, p);
      assert forall i :: 0 <= i < |rest| ==> es[0].0 < rest[i].0 by {
        forall i | 0 <= i < |rest| ensures es[0].0 < rest[i].0 {
          assert rest[i] == es[i + 1];
        }
      }
      KeysAbove(rest, p, es[0].0);
    }
  }

  lemma KeysAbove<T(!new)>(es: seq<(int, T)>, p: ((int, T)) -> bool, low: int)
    requires forall i :: 0 <= i < |es| ==> low < es[i].0
    ensures low !in KeysWhere(es, p)
  {
  }

  /** The ids a filter keeps from a table's entries are the table's keys whose rows pass. */
  lemma KeysWhereEntries<T(!new)>(m: map<int, T>, p: ((int, T)) -> bool)
    ensures KeysWhere(Entries(m), p) == set k | k in m && p((k, m[k]))
  {
    var es := Entries(m);
    var ks := KeysWhere(es, p);
    forall k | k in m && p((k, m[k])) ensures k in ks {
      assert (k, m[k]) in es;
    }
    forall k | k in ks ensures k in m && p((k, m[k])) {
      var i :| 0 <= i < |es| && es[i].0 == k && p(es[i]);
      assert es[i] == (k, m[k]);
    }
  }

  /** A filter over a table's entries keeps one row per key whose row passes. */
  lemma FilterEntriesCount<T(!new)>(m: map<int, T>, p: ((int, T)) -> bool)
    ensures |Filter(Entries(m), p)| == |set k | k in m && p((k, m[k]))|
  {
    FilterKeyCount(Entries(m), p);
    KeysWhereEntries(m, p);
  }

  /** A stricter filter keeps no more rows. */
  lemma {:induction false} FilterStricter<T(!new)>(s: seq<T>, p: T -> bool, q: T -> bool)
    requires forall x :: p(x) ==> q(x)
    ensures |Filter(s, p)| <= |Filter(s, q)|
  {
    if s != [] {
      FilterStricter(s[1..], p, q);
    }
  }

  /** Each entry of a table occurs once in its entry sequence. */
  lemma EntriesOnce<T>(m: map<int, T>, e: (int, T))
    ensures multiset(Entries(m))[e] <= 1
  {
    IncreasingOnce(Entries(m), e);
  }

  lemma {:induction false} IncreasingOnce<T>(es: seq<(int, T)>, e: (int, T))
    requires forall i, j :: 0 <= i < j < |es| ==> es[i].0 < es[j].0
    ensures multiset(es)[e] <= 1
  {
    if es != [] {
      var rest := es[1..];
      assert es == [es[0]] + rest;
      IncreasingOnce(rest, e);
      assert forall j :: 0 <= j < |rest| ==> rest[j] == es[j + 1];
      assert es[0] !in rest;
    }
  }

  /** Lexicographic order on strings by character code. */
  predicate StrLe(a: string, b: string)
  {
    if a == [] then true
    else if b == [] then false
    else if a[0] != b[0] then a[0] < b[0]
    else StrLe(a[1..], b[1..])
  }

  lemma {:induction false} StrLeTotal(a: string, b: string)
    ensures StrLe(a, b) || StrLe(b, a)
  {
    if a != [] && b != [] && a[0] == b[0] {
      StrLeTotal(a[1..], b[1..]);
    }
  }

  lemma {:induction false} StrLeTransitive(a: string, b: string, c: string)
    requires StrLe(a, b) && StrLe(b, c)
    ensures StrLe(a, c)
  {
    if a != [] && b != [] && c != [] && a[0] == b[0] && b[0] == c[0] {
      StrLeTransitive(a[1..], b[1..], c[1..]);
    }
  }

  lemma {:induction false} StrLeAntisymmetric(a: string, b: string)
    requires StrLe(a, b) && StrLe(b, a)
    ensures a == b
  {
    if a != [] && b != [] {
      StrLeAntisymmetric(a[1..], b[1..]);
      assert a == [a[0]] + a[1..];
      assert b == [b[0]] + b[1..];
    }
  }
}

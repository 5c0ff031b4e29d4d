/**
 * The order of the estimate list: descending by flooring area, equal
 * flooring areas in discovery order (Python's list.sort with reverse=True
 * is stable).
 */
module Ordering {
  import opened RoomEstimates

  /** Flooring areas never increase along the list. */
  predicate SortedByFlooring(s: seq<RoomEstimate>) {
    forall i, j :: 0 <= i < j < |s| ==> s[i].flooring >= s[j].flooring
  }

  /** The estimates of s whose flooring area is k, in the order s has them. */
  function WithFlooring(s: seq<RoomEstimate>, k: nat): (r: seq<RoomEstimate>)
    ensures |r| <= |s|
  {
    if s == [] then []
    else (if s[0].flooring == k then [s[0]] else []) + WithFlooring(s[1..], k)
  }

  /**
   * Insert x into a list ordered by flooring: after every estimate with a
   * strictly larger area, before the first one with an equal or smaller one.
   */
  function Insert(x: RoomEstimate, t: seq<RoomEstimate>): (r: seq<RoomEstimate>)
    ensures multiset(r) == multiset(t) + multiset{x}
  {
    if t == [] || t[0].flooring <= x.flooring then [x] + t
    else
      assert t == [t[0]] + t[1..];
      [t[0]] + Insert(x, t[1..])
  }

  /** The estimates ordered as estimates.sort(key=flooring, reverse=True) leaves them. */
  function SortByFlooring(s: seq<RoomEstimate>): (r: seq<RoomEstimate>)
    ensures multiset(r) == multiset(s)
  {
    if s == [] then []
    else
      assert s == [s[0]] + s[1..];
      Insert(s[0], SortByFlooring(s[1..]))
  }

  lemma {:induction false} InsertElements(x: RoomEstimate, t: seq<RoomEstimate>)
    ensures forall e :: e in Insert(x, t) ==> e == x || e in t
  {
    if t != [] && t[0].flooring > x.flooring {
      InsertElements(x, t[1..]);
    }
  }

  lemma {:induction false} InsertSorted(x: RoomEstimate, t: seq<RoomEstimate>)
    requires SortedByFlooring(t)
    ensures SortedByFlooring(Insert(x, t))
  {
    if t != [] && t[0].flooring > x.flooring {
      var r := Insert(x, t[1..]);
      InsertSorted(x, t[1..]);
      InsertElements(x, t[1..]);
      forall j | 0 <= j < |r| ensures r[j].flooring <= t[0].flooring {
        assert r[j] in r;
        if r[j] != x {
          var i :| 0 <= i < |t[1..]| && t[1..][i] == r[j];
          assert t[i + 1] == r[j];
        }
      }
      var u := [t[0]] + r;
      forall i, j | 0 <= i < j < |u| ensures u[i].flooring >= u[j].flooring {
        if i > 0 {
          assert u[i] == r[i - 1] && u[j] == r[j - 1];
        } else {
          assert u[j] == r[j - 1];
        }
      }
    }
  }

  /** The result is ordered by flooring area, largest first. */
  lemma {:induction false} SortSorted(s: seq<RoomEstimate>)
    ensures SortedByFlooring(SortByFlooring(s))
  {
    if s != [] {
      SortSorted(s[1..]);
      InsertSorted(s[0], SortByFlooring(s[1..]));
    }
  }

  lemma WithFlooringCons(x: RoomEstimate, t: seq<RoomEstimate>, k: nat)
    ensures WithFlooring([x] + t, k) == (if x.flooring == k then [x] else []) + WithFlooring(t, k)
  {
    assert ([x] + t)[0] == x;
    assert ([x] + t)[1..] == t;
  }

  lemma {:induction false} InsertStable(x: RoomEstimate, t: seq<RoomEstimate>, k: nat)
    ensures WithFlooring(Insert(x, t), k) == WithFlooring([x] + t, k)
  {
    if t != [] && t[0].flooring > x.flooring {
      var r := Insert(x, t[1..]);
      var px := if x.flooring == k then [x] else [];
      var pt := if t[0].flooring == k then [t[0]] else [];
      assert px + pt == pt + px;
      calc {
        WithFlooring(Insert(x, t), k);
        WithFlooring([t[0]] + r, k);
        { WithFlooringCons(t[0], r, k); }
        pt + WithFlooring(r, k);
        { InsertStable(x, t[1..], k); WithFlooringCons(x, t[1..], k); }
        pt + (px + WithFlooring(t[1..], k));
        px + (pt + WithFlooring(t[1..], k));
        { WithFlooringCons(t[0], t[1..], k); assert [t[0]] + t[1..] == t; }
        px + WithFlooring(t, k);
        { WithFlooringCons(x, t, k); }
        WithFlooring([x] + t, k);
      }
    }
  }

  /**
   * The sort is stable: for every flooring area, the estimates with that
   * area appear in the result in the order they had in the input.
   */
  lemma {:induction false} SortStable(s: seq<RoomEstimate>, k: nat)
    ensures WithFlooring(SortByFlooring(s), k) == WithFlooring(s, k)
  {
    if s != [] {
      SortStable(s[1..], k);
      InsertStable(s[0], SortByFlooring(s[1..]), k);
      WithFlooringCons(s[0], SortByFlooring(s[1..]), k);
      WithFlooringCons(s[0], s[1..], k);
      assert [s[0]] + s[1..] == s;
    }
  }

  lemma {:induction false} WithFlooringMembers(s: seq<RoomEstimate>, k: nat, i: nat)
    requires i < |s| && s[i].flooring == k
    ensures s[i] in WithFlooring(s, k)
  {
    if i > 0 {
      WithFlooringMembers(s[1..], k, i - 1);
    }
  }

  lemma {:induction false} WithFlooringHead(s: seq<RoomEstimate>, k: nat)
    requires SortedByFlooring(s) && s != [] && s[0].flooring == k
    ensures WithFlooring(s, k) != [] && WithFlooring(s, k)[0] == s[0]
  {
  }

  lemma {:induction false} WithFlooringOnly(s: seq<RoomEstimate>, k: nat)
    ensures forall e :: e in WithFlooring(s, k) ==> e in s && e.flooring == k
  {
    if s != [] {
      WithFlooringOnly(s[1..], k);
    }
  }

  /** Two ordered lists that agree on every group of equal areas start with the same estimate. */
  lemma HeadsAgree(r: seq<RoomEstimate>, q: seq<RoomEstimate>)
    requires SortedByFlooring(r) && SortedByFlooring(q) && r != [] && q != []
    requires WithFlooring(r, r[0].flooring) == WithFlooring(q, r[0].flooring)
    requires WithFlooring(r, q[0].flooring) == WithFlooring(q, q[0].flooring)
    ensures r[0] == q[0]
  {
    var m, n := r[0].flooring, q[0].flooring;
    // r holds an estimate with q's largest area, so m >= n, and the other way round.
    WithFlooringMembers(q, n, 0);
    WithFlooringOnly(r, n);
    assert q[0] in WithFlooring(r, n);
    var i :| 0 <= i < |r| && r[i] == q[0];
    assert n <= m;
    WithFlooringMembers(r, m, 0);
    WithFlooringOnly(q, m);
    assert r[0] in WithFlooring(q, m);
    var j :| 0 <= j < |q| && q[j] == r[0];
    assert m <= n;
    WithFlooringHead(r, m);
    WithFlooringHead(q, m);
    assert WithFlooring(r, m) == WithFlooring(q, m);
    assert WithFlooring(r, m)[0] == r[0];
    assert WithFlooring(q, m)[0] == q[0];
  }

  lemma TailsAgree(r: seq<RoomEstimate>, q: seq<RoomEstimate>, k: nat)
    requires r != [] && q != [] && r[0] == q[0]
    requires WithFlooring(r, k) == WithFlooring(q, k)
    ensures WithFlooring(r[1..], k) == WithFlooring(q[1..], k)
  {
    WithFlooringCons(r[0], r[1..], k);
    WithFlooringCons(q[0], q[1..], k);
    assert [r[0]] + r[1..] == r;
    assert [q[0]] + q[1..] == q;
    var p := if r[0].flooring == k then [r[0]] else [];
    assert WithFlooring(r[1..], k) == WithFlooring(r, k)[|p|..];
    assert WithFlooring(q[1..], k) == WithFlooring(q, k)[|p|..];
  }

  /**
   * A stable descending sort has only one possible result: two lists that
   * are both ordered by flooring area and agree on the order of every
   * group of equal areas are the same list. So any stable sort, Python's
   * included, returns exactly SortByFlooring(s).
   */
  lemma {:induction false} StableSortUnique(r: seq<RoomEstimate>, q: seq<RoomEstimate>)
    requires SortedByFlooring(r) && SortedByFlooring(q)
    requires forall k: nat :: WithFlooring(r, k) == WithFlooring(q, k)
    ensures r == q
    decreases |r|
  {
    if r == [] {
      if q != [] {
        WithFlooringMembers(q, q[0].flooring, 0);
        assert false;
      }
    } else if q == [] {
      WithFlooringMembers(r, r[0].flooring, 0);
      assert false;
    } else {
      HeadsAgree(r, q);
      forall k: nat ensures WithFlooring(r[1..], k) == WithFlooring(q[1..], k) {
        TailsAgree(r, q, k);
      }
      StableSortUnique(r[1..], q[1..]);
      assert r == [r[0]] + r[1..];
      assert q == [q[0]] + q[1..];
    }
  }

  /**
   * The list returned is the only list ordered by flooring area whose
   * groups of equal areas keep their input order, and it is a
   * permutation of the input.
   */
  lemma SortIsTheStableSort(s: seq<RoomEstimate>, r: seq<RoomEstimate>)
    requires SortedByFlooring(r)
    requires forall k: nat :: WithFlooring(r, k) == WithFlooring(s, k)
    ensures r == SortByFlooring(s)
    ensures multiset(r) == multiset(s)
  {
    SortSorted(s);
    forall k: nat ensures WithFlooring(r, k) == WithFlooring(SortByFlooring(s), k) {
      SortStable(s, k);
    }
    StableSortUnique(r, SortByFlooring(s));
  }
}

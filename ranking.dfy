/**
  The final `businesses.sort((a, b) => a.distanceMeters - b.distanceMeters)`
  of api/nearby.js: an in-place stable sort on the rounded distance only.
  Any stable sort gives the same output, so insertion sort stands for the
  engine's algorithm.
 */
module Ranking {
  import opened Businesses

  predicate SortedByDistance(s: seq<Business>) {
    forall i, j :: 0 <= i < j < |s| ==> s[i].distanceMeters <= s[j].distanceMeters
  }

  /** The subsequence of records whose rounded distance is `m`, in their order in `s`. */
  function AtDistance(s: seq<Business>, m: int): (r: seq<Business>)
    ensures |r| <= |s|
  {
    if s == [] then []
    else
      var rest := AtDistance(s[..|s| - 1], m);
      var last := s[|s| - 1];
      if last.distanceMeters == m then rest + [last] else rest
  }

  /** The group at `m` holds exactly the records of `s` at rounded distance `m`. */
  lemma {:induction false} AtDistanceMembers(s: seq<Business>, m: int)
    ensures forall x :: x in AtDistance(s, m) <==> x in s && x.distanceMeters == m
  {
    if s != [] {
      var n := |s| - 1;
      assert s == s[..n] + [s[n]];
      AtDistanceMembers(s[..n], m);
    }
  }

  /**
    `r` is what a stable sort by rounded distance makes of `s`: sorted, a
    permutation, and records of equal rounded distance in their order in `s`.
   */
  ghost predicate StablySorted(r: seq<Business>, s: seq<Business>) {
    && SortedByDistance(r)
    && multiset(r) == multiset(s)
    && SameGroups(r, s)
  }

  /** Every equal-distance subsequence of `r` is that of `s`. */
  ghost predicate SameGroups(r: seq<Business>, s: seq<Business>) {
    forall m :: AtDistance(r, m) == AtDistance(s, m)
  }

  lemma SameGroupsTrans(r: seq<Business>, s: seq<Business>, t: seq<Business>)
    requires SameGroups(r, s) && SameGroups(s, t)
    ensures SameGroups(r, t)
  {
  }

  lemma {:induction false} AtDistanceConcat(a: seq<Business>, b: seq<Business>, m: int)
    ensures AtDistance(a + b, m) == AtDistance(a, m) + AtDistance(b, m)
  {
    if b != [] {
      var n := |b| - 1;
      assert (a + b)[..|a + b| - 1] == a + b[..n];
      AtDistanceConcat(a, b[..n], m);
    } else {
      assert a + b == a;
    }
  }

  /** With distinct ids, no record occurs twice. */
  lemma {:induction false} DistinctIdsOnce(s: seq<Business>, x: Business)
    requires DistinctIds(s)
    ensures multiset(s)[x] <= 1
  {
    if s != [] {
      var n := |s| - 1;
      assert s == s[..n] + [s[n]];
      assert DistinctIds(s[..n]);
      DistinctIdsOnce(s[..n], x);
      if s[n] == x {
        assert x !in s[..n];
      }
    }
  }

  /** A value at two positions occurs at least twice. */
  lemma TwiceInMultiset<T>(r: seq<T>, p: int, q: int)
    requires 0 <= p < q < |r| && r[p] == r[q]
    ensures multiset(r)[r[p]] >= 2
  {
    assert r == r[..p] + [r[p]] + r[p + 1..q] + [r[q]] + r[q + 1..];
  }

  /** With distinct ids, two records of `s` with the same id are the same record. */
  lemma SameIdSameRecord(s: seq<Business>, x: Business, y: Business)
    requires DistinctIds(s)
    requires x in s && y in s && x.id == y.id
    ensures x == y
  {
    var u :| 0 <= u < |s| && s[u] == x;
    var v :| 0 <= v < |s| && s[v] == y;
  }

  /** A permutation of records with distinct ids has distinct ids. */
  lemma DistinctIdsPermutation(r: seq<Business>, s: seq<Business>)
    requires multiset(r) == multiset(s)
    requires DistinctIds(s)
    ensures DistinctIds(r)
  {
    forall p, q | 0 <= p < q < |r| ensures r[p].id != r[q].id {
      var x, y := r[p], r[q];
      if x == y {
        TwiceInMultiset(r, p, q);
        DistinctIdsOnce(s, x);
      } else {
        assert x in multiset(s) && y in multiset(s);
        if x.id == y.id {
          SameIdSameRecord(s, x, y);
        }
      }
    }
  }

  /** The first `n` records are sorted by rounded distance. */
  predicate SortedPrefix(s: seq<Business>, n: int)
    requires 0 <= n <= |s|
  {
    forall p, q :: 0 <= p < q < n ==> s[p].distanceMeters <= s[q].distanceMeters
  }

  /** `s` with `s[i]` moved down to position `j`. */
  function MoveDown<T>(s: seq<T>, j: int, i: int): seq<T>
    requires 0 <= j <= i < |s|
  {
    s[..j] + [s[i]] + s[j..i] + s[i + 1..]
  }

  /** Where each element of `MoveDown(s, j, i)` comes from. */
  lemma MoveDownAt<T>(s: seq<T>, j: int, i: int)
    requires 0 <= j <= i < |s|
    ensures |MoveDown(s, j, i)| == |s|
    ensures forall k :: 0 <= k < j ==> MoveDown(s, j, i)[k] == s[k]
    ensures MoveDown(s, j, i)[j] == s[i]
    ensures forall k :: j < k <= i ==> MoveDown(s, j, i)[k] == s[k - 1]
    ensures forall k :: i < k < |s| ==> MoveDown(s, j, i)[k] == s[k]
  {
  }

  /** `s` and `MoveDown(s, j, i)` as the same four pieces in two orders. */
  lemma MoveDownPieces<T>(s: seq<T>, j: int, i: int) returns (pre: seq<T>, mid: seq<T>, x: T, post: seq<T>)
    requires 0 <= j <= i < |s|
    ensures s == pre + mid + [x] + post
    ensures MoveDown(s, j, i) == pre + [x] + mid + post
    ensures x == s[i] && |mid| == i - j
    ensures forall k :: 0 <= k < |mid| ==> mid[k] == s[j + k]
  {
    pre, mid, x, post := s[..j], s[j..i], s[i], s[i + 1..];
    assert s == pre + mid + [x] + post;
  }

  lemma AtDistanceNone(s: seq<Business>, m: int)
    requires forall k :: 0 <= k < |s| ==> s[k].distanceMeters != m
    ensures AtDistance(s, m) == []
  {
    if s != [] {
      AtDistanceNone(s[..|s| - 1], m);
    }
  }

  lemma AtDistanceConcat4(a: seq<Business>, b: seq<Business>, c: seq<Business>, d: seq<Business>, m: int)
    ensures AtDistance(a + b + c + d, m) == AtDistance(a, m) + AtDistance(b, m) + AtDistance(c, m) + AtDistance(d, m)
  {
    AtDistanceConcat(a + b + c, d, m);
    AtDistanceConcat(a + b, c, m);
    AtDistanceConcat(a, b, m);
  }

  lemma AtDistanceOther(x: Business, m: int)
    requires x.distanceMeters != m
    ensures AtDistance([x], m) == []
  {
    assert [x][..0] == [];
  }

  /** A record passing records of larger rounded distance leaves every group as it was. */
  lemma PassLargerKeepsGroup(pre: seq<Business>, mid: seq<Business>, x: Business, post: seq<Business>, m: int)
    requires forall k :: 0 <= k < |mid| ==> mid[k].distanceMeters > x.distanceMeters
    ensures AtDistance(pre + [x] + mid + post, m) == AtDistance(pre + mid + [x] + post, m)
  {
    AtDistanceConcat4(pre, [x], mid, post, m);
    AtDistanceConcat4(pre, mid, [x], post, m);
    if x.distanceMeters == m {
      AtDistanceNone(mid, m);
    } else {
      AtDistanceOther(x, m);
    }
  }

  /** Moving a record down past records of larger rounded distance is a stable permutation. */
  lemma MoveDownIsStable(s: seq<Business>, j: int, i: int)
    requires 0 <= j <= i < |s|
    requires forall k :: j <= k < i ==> s[k].distanceMeters > s[i].distanceMeters
    ensures multiset(MoveDown(s, j, i)) == multiset(s)
    ensures SameGroups(MoveDown(s, j, i), s)
  {
    var pre, mid, x, post := MoveDownPieces(s, j, i);
    forall m ensures AtDistance(MoveDown(s, j, i), m) == AtDistance(s, m) {
      PassLargerKeepsGroup(pre, mid, x, post, m);
    }
  }

  /** Moving `s[i]` one place further down is one exchange of neighbours. */
  lemma MoveDownStep<T>(s: seq<T>, j: int, i: int)
    requires 0 < j <= i < |s|
    ensures var t := MoveDown(s, j, i);
            MoveDown(s, j - 1, i) == t[j - 1 := t[j]][j := t[j - 1]]
  {
    var t := MoveDown(s, j, i);
    assert t[j - 1] == s[j - 1] && t[j] == s[i];
  }

  /**
    If `s[..i]` is sorted, `s[i]` has passed only larger records and stops
    at a record no larger than itself (or at the front), the first `i + 1`
    records end up sorted.
   */
  lemma MoveDownSorted(s: seq<Business>, j: int, i: int)
    requires 0 <= j <= i < |s| && SortedPrefix(s, i)
    requires forall k :: j <= k < i ==> s[k].distanceMeters > s[i].distanceMeters
    requires j == 0 || s[j - 1].distanceMeters <= s[i].distanceMeters
    ensures SortedPrefix(MoveDown(s, j, i), i + 1)
  {
    var t := MoveDown(s, j, i);
    MoveDownAt(s, j, i);
    forall p, q | 0 <= p < q < i + 1 ensures t[p].distanceMeters <= t[q].distanceMeters {
      if q < j {
        assert t[p] == s[p] && t[q] == s[q];
      } else if q == j {
        assert t[p] == s[p] && s[p].distanceMeters <= s[j - 1].distanceMeters;
      } else if p < j {
        assert t[p] == s[p] && t[q] == s[q - 1];
      } else if p == j {
        assert t[q] == s[q - 1];
      } else {
        assert t[p] == s[p - 1] && t[q] == s[q - 1];
      }
    }
  }

  /** One insertion step: moves `a[i]` left past every record of larger rounded distance. */
  method InsertLast(a: array<Business>, i: int)
    requires 0 < i < a.Length && SortedPrefix(a[..], i)
    modifies a
    ensures SortedPrefix(a[..], i + 1)
    ensures multiset(a[..]) == multiset(old(a[..]))
    ensures SameGroups(a[..], old(a[..]))
  {
    ghost var s := a[..];
    var j := i;
    assert s == MoveDown(s, i, i);
    while j > 0 && a[j - 1].distanceMeters > a[j].distanceMeters
      invariant 0 <= j <= i
      invariant a[..] == MoveDown(s, j, i)
      invariant forall k :: j <= k < i ==> s[k].distanceMeters > s[i].distanceMeters
    {
      MoveDownStep(s, j, i);
      a[j - 1], a[j] := a[j], a[j - 1];
      j := j - 1;
    }
    MoveDownSorted(s, j, i);
    MoveDownIsStable(s, j, i);
  }

  /** Two records of one group of `s`, in their order in `s`, keep that order in the group. */
  lemma {:induction false} AtDistanceKeepsOrder(s: seq<Business>, i: int, j: int, m: int)
    requires 0 <= i < j < |s| && s[i].distanceMeters == m && s[j].distanceMeters == m
    ensures exists p, q :: && 0 <= p < q < |AtDistance(s, m)|
                           && AtDistance(s, m)[p] == s[i] && AtDistance(s, m)[q] == s[j]
  {
    var n := |s| - 1;
    var init := s[..n];
    var g := AtDistance(init, m);
    assert AtDistance(s, m) == if s[n].distanceMeters == m then g + [s[n]] else g;
    if j < n {
      AtDistanceKeepsOrder(init, i, j, m);
      var p, q :| 0 <= p < q < |g| && g[p] == init[i] && g[q] == init[j];
      assert AtDistance(s, m)[p] == s[i] && AtDistance(s, m)[q] == s[j];
    } else {
      AtDistanceMembers(init, m);
      assert init[i] in init;
      var p :| 0 <= p < |g| && g[p] == s[i];
      assert AtDistance(s, m)[p] == s[i] && AtDistance(s, m)[|g|] == s[j];
    }
  }

  /** Two records of one group of `s`, in their order in the group, occur in that order in `s`. */
  lemma {:induction false} AtDistanceInOrder(s: seq<Business>, m: int, p: int, q: int)
    requires 0 <= p < q < |AtDistance(s, m)|
    ensures exists i, j :: 0 <= i < j < |s| && s[i] == AtDistance(s, m)[p] && s[j] == AtDistance(s, m)[q]
  {
    var n := |s| - 1;
    var init := s[..n];
    var g := AtDistance(init, m);
    assert AtDistance(s, m) == if s[n].distanceMeters == m then g + [s[n]] else g;
    if q < |g| {
      AtDistanceInOrder(init, m, p, q);
      var i, j :| 0 <= i < j < |init| && init[i] == g[p] && init[j] == g[q];
      assert s[i] == init[i] && s[j] == init[j];
    } else {
      AtDistanceMembers(init, m);
      assert g[p] in g;
      var i :| 0 <= i < n && init[i] == g[p];
      assert s[i] == init[i];
    }
  }

  /** Sorted sequences with the same groups end at the same rounded distance. */
  lemma LastSameDistance(r: seq<Business>, t: seq<Business>)
    requires SortedByDistance(r) && SortedByDistance(t)
    requires |r| == |t| > 0 && SameGroups(r, t)
    ensures r[|r| - 1].distanceMeters == t[|t| - 1].distanceMeters
  {
    var x, y := r[|r| - 1], t[|t| - 1];
    AtDistanceMembers(r, x.distanceMeters);
    AtDistanceMembers(t, x.distanceMeters);
    AtDistanceMembers(r, y.distanceMeters);
    AtDistanceMembers(t, y.distanceMeters);
    assert x in AtDistance(t, x.distanceMeters);
    assert y in AtDistance(r, y.distanceMeters);
  }

  /** Equal last rounded distances and the same groups: equal last records, and the rest has the same groups. */
  lemma SameGroupsDropLast(r: seq<Business>, t: seq<Business>)
    requires |r| == |t| > 0 && SameGroups(r, t)
    requires r[|r| - 1].distanceMeters == t[|t| - 1].distanceMeters
    ensures r[|r| - 1] == t[|t| - 1]
    ensures SameGroups(r[..|r| - 1], t[..|t| - 1])
  {
    var n := |r| - 1;
    var big := r[n].distanceMeters;
    var g, h := AtDistance(r[..n], big), AtDistance(t[..n], big);
    assert AtDistance(r, big) == g + [r[n]];
    assert AtDistance(t, big) == h + [t[n]];
    assert g + [r[n]] == h + [t[n]];
    assert |g| == |h|;
    assert r[n] == (g + [r[n]])[|g|] == (h + [t[n]])[|h|] == t[n];
    assert g == (g + [r[n]])[..|g|] == (h + [t[n]])[..|h|] == h;
    forall m ensures AtDistance(r[..n], m) == AtDistance(t[..n], m) {
      if m != big {
        assert AtDistance(r, m) == AtDistance(r[..n], m);
        assert AtDistance(t, m) == AtDistance(t[..n], m);
      }
    }
  }

  /** Two sorted sequences with the same groups are equal. */
  lemma {:induction false} SortedSameGroupsEqual(r: seq<Business>, t: seq<Business>)
    requires SortedByDistance(r) && SortedByDistance(t)
    requires |r| == |t| && SameGroups(r, t)
    ensures r == t
  {
    if r != [] {
      var n := |r| - 1;
      LastSameDistance(r, t);
      SameGroupsDropLast(r, t);
      SortedSameGroupsEqual(r[..n], t[..n]);
      assert r == r[..n] + [r[n]] && t == t[..n] + [t[n]];
    }
  }

  /** A stable sort by rounded distance has one possible outcome. */
  lemma StablySortedUnique(r: seq<Business>, t: seq<Business>, s: seq<Business>)
    requires StablySorted(r, s) && StablySorted(t, s)
    ensures r == t
  {
    assert |r| == |multiset(r)| == |multiset(t)| == |t|;
    SameGroupsTrans(r, s, t);
    SortedSameGroupsEqual(r, t);
  }

  /** Sorts `a` in place by rounded distance, keeping equal distances in their original order. */
  method SortByDistance(a: array<Business>)
    modifies a
    ensures StablySorted(a[..], old(a[..]))
  {
    if a.Length == 0 {
      return;
    }
    var i := 1;
    while i < a.Length
      invariant 1 <= i <= a.Length
      invariant SortedPrefix(a[..], i)
      invariant multiset(a[..]) == multiset(old(a[..]))
      invariant SameGroups(a[..], old(a[..]))
    {
      InsertLast(a, i);
      i := i + 1;
    }
  }
}

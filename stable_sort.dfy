/**
 * `Array.prototype.sort` with a comparator, as the dashboard uses it: the
 * sort is stable, and `cmp(a, b) > 0` means that `a` belongs after `b`.
 * SortSeq is the specification (insertion from the right, one element at a
 * time); SortInPlace performs it on an array.
 */
module StableSort {

  /** Inserts `x` after every trailing element that does not belong after it. */
  function Insert<T>(s: seq<T>, x: T, cmp: (T, T) -> int): (r: seq<T>)
    ensures |r| == |s| + 1
    decreases |s|
  {
    if |s| == 0 || cmp(s[|s| - 1], x) <= 0 then s + [x]
    else Insert(s[..|s| - 1], x, cmp) + [s[|s| - 1]]
  }

  /** The stably sorted order of `s`. */
  function SortSeq<T>(s: seq<T>, cmp: (T, T) -> int): (r: seq<T>)
    ensures |r| == |s|
    decreases |s|
  {
    if |s| == 0 then [] else Insert(SortSeq(s[..|s| - 1], cmp), s[|s| - 1], cmp)
  }

  lemma {:induction false} InsertPermutes<T>(s: seq<T>, x: T, cmp: (T, T) -> int)
    ensures multiset(Insert(s, x, cmp)) == multiset(s) + multiset{x}
    decreases |s|
  {
    if |s| > 0 && cmp(s[|s| - 1], x) > 0 {
      InsertPermutes(s[..|s| - 1], x, cmp);
      assert s == s[..|s| - 1] + [s[|s| - 1]];
    }
  }

  /** The specification's order is a permutation of its input. */
  lemma {:induction false} SortSeqPermutes<T>(s: seq<T>, cmp: (T, T) -> int)
    ensures multiset(SortSeq(s, cmp)) == multiset(s)
    decreases |s|
  {
    if |s| > 0 {
      SortSeqPermutes(s[..|s| - 1], cmp);
      InsertPermutes(SortSeq(s[..|s| - 1], cmp), s[|s| - 1], cmp);
      assert s == s[..|s| - 1] + [s[|s| - 1]];
    }
  }

  /** Every element is in order with its successor. */
  ghost predicate Sorted<T>(s: seq<T>, cmp: (T, T) -> int) {
    forall i :: 0 < i < |s| ==> cmp(s[i - 1], s[i]) <= 0
  }

  /** If `a` belongs after `b`, then `b` belongs before `a`. */
  ghost predicate Antisymmetric<T(!new)>(cmp: (T, T) -> int) {
    forall a, b :: cmp(a, b) > 0 ==> cmp(b, a) < 0
  }

  /** Two elements tied with a third are tied with each other. */
  ghost predicate TiesTransitive<T(!new)>(cmp: (T, T) -> int) {
    forall a, b, p :: cmp(a, p) == 0 && cmp(b, p) == 0 ==> cmp(a, b) == 0
  }

  /** The elements of `s` tied with `p`, in their order in `s`. */
  function Ties<T>(s: seq<T>, p: T, cmp: (T, T) -> int): (r: seq<T>)
    ensures |r| <= |s|
  {
    if |s| == 0 then []
    else Ties(s[..|s| - 1], p, cmp) + (if cmp(s[|s| - 1], p) == 0 then [s[|s| - 1]] else [])
  }

  lemma {:induction false} TiesAppend<T>(s: seq<T>, t: seq<T>, p: T, cmp: (T, T) -> int)
    ensures Ties(s + t, p, cmp) == Ties(s, p, cmp) + Ties(t, p, cmp)
    decreases |t|
  {
    if |t| > 0 {
      assert (s + t)[..|s + t| - 1] == s + t[..|t| - 1];
      TiesAppend(s, t[..|t| - 1], p, cmp);
    } else {
      assert s + t == s;
    }
  }

  lemma {:induction false} InsertLast<T>(s: seq<T>, x: T, cmp: (T, T) -> int)
    ensures var r := Insert(s, x, cmp);
      r[|r| - 1] == x || (|s| > 0 && r[|r| - 1] == s[|s| - 1])
  {
  }

  lemma {:induction false} InsertSorted<T(!new)>(s: seq<T>, x: T, cmp: (T, T) -> int)
    requires Antisymmetric(cmp)
    requires Sorted(s, cmp)
    ensures Sorted(Insert(s, x, cmp), cmp)
    decreases |s|
  {
    if |s| > 0 && cmp(s[|s| - 1], x) > 0 {
      var init := s[..|s| - 1];
      var last := s[|s| - 1];
      InsertSorted(init, x, cmp);
      var r' := Insert(init, x, cmp);
      InsertLast(init, x, cmp);
      assert cmp(r'[|r'| - 1], last) <= 0 by {
        if r'[|r'| - 1] == x {
          assert cmp(x, last) < 0;
        } else {
          assert s[|s| - 2] == init[|init| - 1];
        }
      }
      assert Insert(s, x, cmp) == r' + [last];
    }
  }

  /** The specification's order respects the comparator. */
  lemma {:induction false} SortSeqSorted<T(!new)>(s: seq<T>, cmp: (T, T) -> int)
    requires Antisymmetric(cmp)
    ensures Sorted(SortSeq(s, cmp), cmp)
    decreases |s|
  {
    if |s| > 0 {
      SortSeqSorted(s[..|s| - 1], cmp);
      InsertSorted(SortSeq(s[..|s| - 1], cmp), s[|s| - 1], cmp);
    }
  }

  lemma {:induction false} TiesSingle<T>(y: T, p: T, cmp: (T, T) -> int)
    ensures Ties([y], p, cmp) == TiedPart(y, p, cmp)
  {
    assert [y][..0] == [];
  }

  /** `[y]` when `y` is tied with `p`, otherwise empty. */
  function TiedPart<T>(y: T, p: T, cmp: (T, T) -> int): seq<T> {
    if cmp(y, p) == 0 then [y] else []
  }

  lemma {:induction false} InsertTiesPast<T(!new)>(init: seq<T>, last: T, x: T, p: T, cmp: (T, T) -> int)
    requires TiesTransitive(cmp)
    requires cmp(last, x) > 0
    requires Ties(Insert(init, x, cmp), p, cmp) == Ties(init, p, cmp) + TiedPart(x, p, cmp)
    ensures Ties(Insert(init + [last], x, cmp), p, cmp) == Ties(init + [last], p, cmp) + TiedPart(x, p, cmp)
  {
    var s := init + [last];
    assert s[..|s| - 1] == init;
    var mid := Insert(init, x, cmp);
    assert Insert(s, x, cmp) == mid + [last];
    TiesAppend(mid, [last], p, cmp);
    TiesAppend(init, [last], p, cmp);
    TiesSingle(last, p, cmp);
    var xs, ls := TiedPart(x, p, cmp), TiedPart(last, p, cmp);
    assert !(cmp(x, p) == 0 && cmp(last, p) == 0);
    assert xs + ls == ls + xs;
    assert Ties(init, p, cmp) + xs + ls == Ties(init, p, cmp) + (xs + ls);
  }

  lemma {:induction false} InsertTies<T(!new)>(s: seq<T>, x: T, p: T, cmp: (T, T) -> int)
    requires TiesTransitive(cmp)
    ensures Ties(Insert(s, x, cmp), p, cmp) == Ties(s, p, cmp) + TiedPart(x, p, cmp)
    decreases |s|
  {
    if |s| == 0 || cmp(s[|s| - 1], x) <= 0 {
      TiesAppend(s, [x], p, cmp);
      TiesSingle(x, p, cmp);
    } else {
      var init := s[..|s| - 1];
      InsertTies(init, x, p, cmp);
      InsertTiesPast(init, s[|s| - 1], x, p, cmp);
      assert s == init + [s[|s| - 1]];
    }
  }

  /**
   * Stability: the elements tied with any `p` come out in the order they
   * went in.
   */
  lemma {:induction false} SortSeqStable<T(!new)>(s: seq<T>, p: T, cmp: (T, T) -> int)
    requires TiesTransitive(cmp)
    ensures Ties(SortSeq(s, cmp), p, cmp) == Ties(s, p, cmp)
    decreases |s|
  {
    if |s| > 0 {
      var init, x := s[..|s| - 1], s[|s| - 1];
      assert s == init + [x];
      SortSeqStable(init, p, cmp);
      InsertTies(SortSeq(init, cmp), x, p, cmp);
      TiesAppend(init, [x], p, cmp);
      TiesSingle(x, p, cmp);
    }
  }

  /** A comparator that ties everything leaves the order unchanged. */
  lemma {:induction false} SortSeqAllTied<T>(s: seq<T>, cmp: (T, T) -> int)
    requires forall a, b :: cmp(a, b) == 0
    ensures SortSeq(s, cmp) == s
    decreases |s|
  {
    if |s| > 0 {
      SortSeqAllTied(s[..|s| - 1], cmp);
      assert s == s[..|s| - 1] + [s[|s| - 1]];
    }
  }

  lemma InsertPast<T>(t: seq<T>, j: nat, x: T, cmp: (T, T) -> int)
    requires 0 < j <= |t| && cmp(t[j - 1], x) > 0
    ensures Insert(t[..j], x, cmp) + t[j..] == Insert(t[..j - 1], x, cmp) + t[j - 1..]
  {
    assert t[..j][..j - 1] == t[..j - 1];
    assert t[j - 1..] == [t[j - 1]] + t[j..];
  }

  lemma SortSeqSnoc<T>(t: seq<T>, x: T, cmp: (T, T) -> int)
    ensures SortSeq(t + [x], cmp) == Insert(SortSeq(t, cmp), x, cmp)
  {
    assert (t + [x])[..|t|] == t;
  }

  /** `map(f)`: `f` applied to each element, in order. */
  function MapSeq<A, B>(f: A -> B, s: seq<A>): (r: seq<B>)
    ensures |r| == |s| && forall i :: 0 <= i < |s| ==> r[i] == f(s[i])
  {
    seq(|s|, i requires 0 <= i < |s| => f(s[i]))
  }

  /** Inserting an image under a comparator that compares images as `c1` compares originals is the image of inserting. */
  lemma {:induction false} InsertMap<A, B>(s: seq<A>, x: A, f: A -> B, c1: (A, A) -> int, c2: (B, B) -> int)
    requires forall a, b :: c2(f(a), f(b)) == c1(a, b)
    ensures Insert(MapSeq(f, s), f(x), c2) == MapSeq(f, Insert(s, x, c1))
    decreases |s|
  {
    if |s| > 0 && c1(s[|s| - 1], x) > 0 {
      var init := s[..|s| - 1];
      assert MapSeq(f, s)[..|s| - 1] == MapSeq(f, init);
      InsertMap(init, x, f, c1, c2);
      assert MapSeq(f, Insert(init, x, c1) + [s[|s| - 1]]) == MapSeq(f, Insert(init, x, c1)) + [f(s[|s| - 1])];
    } else {
      assert MapSeq(f, s + [x]) == MapSeq(f, s) + [f(x)];
    }
  }

  /** Sorting the images is the image of sorting, when the comparators agree. */
  lemma {:induction false} SortSeqMap<A, B>(s: seq<A>, f: A -> B, c1: (A, A) -> int, c2: (B, B) -> int)
    requires forall a, b :: c2(f(a), f(b)) == c1(a, b)
    ensures SortSeq(MapSeq(f, s), c2) == MapSeq(f, SortSeq(s, c1))
    decreases |s|
  {
    if |s| > 0 {
      var init := s[..|s| - 1];
      assert MapSeq(f, s)[..|s| - 1] == MapSeq(f, init);
      SortSeqMap(init, f, c1, c2);
      InsertMap(SortSeq(init, c1), s[|s| - 1], f, c1, c2);
    }
  }

  /** Swapping `x` with the element before it moves it one place left in the run. */
  lemma SwapShift<T>(sp: seq<T>, x: T, j: nat)
    requires 0 < j <= |sp|
    ensures (sp[..j] + [x] + sp[j..])[j - 1 := x][j := sp[j - 1]] == sp[..j - 1] + [x] + sp[j - 1..]
  {
    assert sp[..j] == sp[..j - 1] + [sp[j - 1]];
    assert sp[j - 1..] == [sp[j - 1]] + sp[j..];
  }

  /** Where the run stops, `x` sits where Insert puts it. */
  lemma InsertStops<T>(t: seq<T>, j: nat, x: T, cmp: (T, T) -> int)
    requires j <= |t| && (j == 0 || cmp(t[j - 1], x) <= 0)
    ensures Insert(t[..j], x, cmp) + t[j..] == t[..j] + [x] + t[j..]
  {
  }

  /** Moves `a[i]` left into the run `a[..i]`, as Insert describes. */
  method InsertInPlace<T>(a: array<T>, i: nat, cmp: (T, T) -> int)
    requires i < a.Length
    modifies a
    ensures a[..i + 1] == Insert(old(a[..i]), old(a[i]), cmp)
    ensures a[i + 1..] == old(a[i + 1..])
  {
    ghost var sp, x := a[..i], a[i];
    var j := i;
    assert sp[..i] == sp && sp[i..] == [];
    assert a[..i + 1] == sp[..i] + [x] + sp[i..];
    while j > 0 && cmp(a[j - 1], a[j]) > 0
      invariant 0 <= j <= i
      invariant a[..i + 1] == sp[..j] + [x] + sp[j..]
      invariant a[i + 1..] == old(a[i + 1..])
      invariant Insert(sp, x, cmp) == Insert(sp[..j], x, cmp) + sp[j..]
    {
      ghost var before := a[..i + 1];
      assert before[j - 1] == sp[j - 1] && before[j] == x;
      InsertPast(sp, j, x, cmp);
      a[j - 1], a[j] := a[j], a[j - 1];
      assert a[..i + 1] == before[j - 1 := x][j := sp[j - 1]];
      SwapShift(sp, x, j);
      j := j - 1;
    }
    assert j > 0 ==> a[..i + 1][j - 1] == sp[j - 1] && a[..i + 1][j] == x;
    InsertStops(sp, j, x, cmp);
  }

  /** Sorts `a` in place into the order SortSeq specifies. */
  method SortInPlace<T>(a: array<T>, cmp: (T, T) -> int)
    modifies a
    ensures a[..] == SortSeq(old(a[..]), cmp)
  {
    ghost var orig := a[..];
    var i := 0;
    while i < a.Length
      invariant 0 <= i <= a.Length
      invariant a[..i] == SortSeq(orig[..i], cmp)
      invariant a[i..] == orig[i..]
    {
      InsertInPlace(a, i, cmp);
      assert orig[..i + 1] == orig[..i] + [orig[i]];
      SortSeqSnoc(orig[..i], orig[i], cmp);
      i := i + 1;
    }
    assert orig[..a.Length] == orig;
  }
}

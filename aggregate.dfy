/**
 * The running average the status poll recomputes (gpro/backend/app.py,
 * `get_status`): the mean of every individual rx value of every stored
 * scan, or 0 when there is none.
 */
module Aggregate {
  import opened Ingest

  /** All rx values of all scans, in arrival order: the source's flattening comprehension. */
  function Readings(scans: seq<Scan>): (xs: seq<real>)
    ensures forall x :: x in xs ==> exists i :: 0 <= i < |scans| && x in scans[i].rx
  {
    if scans == [] then [] else scans[0].rx + Readings(scans[1..])
  }

  /** The sum of a list of readings, added from the front. */
  function Sum(xs: seq<real>): (total: real)
  {
    if xs == [] then 0.0 else xs[0] + Sum(xs[1..])
  }

  /** The stored average: sum over count, or 0 when no reading exists (also when every rx is empty). */
  function Average(scans: seq<Scan>): (avg: real)
    ensures |Readings(scans)| == 0 ==> avg == 0.0
    ensures |Readings(scans)| > 0 ==> avg * (|Readings(scans)| as real) == Sum(Readings(scans))
  {
    var xs := Readings(scans);
    if |xs| == 0 then 0.0
    else
      var sum, n := Sum(xs), |xs| as real;
      DivTimes(sum, n);
      sum / n
  }

  lemma DivTimes(sum: real, n: real)
    requires n > 0.0
    ensures (sum / n) * n == sum
  {
  }

  lemma {:induction false} ReadingsAppend(a: seq<Scan>, b: seq<Scan>)
    ensures Readings(a + b) == Readings(a) + Readings(b)
  {
    if a == [] {
      assert a + b == b;
    } else {
      assert (a + b)[1..] == a[1..] + b;
      ReadingsAppend(a[1..], b);
    }
  }

  /** Every reading of every stored scan is among the flattened readings, as often as in its scan. */
  lemma {:induction false} ReadingsContain(scans: seq<Scan>, i: nat)
    requires i < |scans|
    ensures multiset(scans[i].rx) <= multiset(Readings(scans))
  {
    if i > 0 {
      ReadingsContain(scans[1..], i - 1);
    }
  }

  /** Storing one more scan puts its readings at the end of the flattened list. */
  lemma ReadingsSnoc(scans: seq<Scan>, scan: Scan)
    ensures Readings(scans + [scan]) == Readings(scans) + scan.rx
  {
    ReadingsAppend(scans, [scan]);
    assert Readings([scan]) == scan.rx + Readings([]);
  }

  /** A list of scans with no readings at all averages to 0. */
  lemma {:induction false} EmptyReadingsAverageZero(scans: seq<Scan>)
    requires forall i :: 0 <= i < |scans| ==> scans[i].rx == []
    ensures Readings(scans) == []
    ensures Average(scans) == 0.0
  {
    if scans != [] {
      EmptyReadingsAverageZero(scans[1..]);
    }
  }

  lemma {:induction false} SumAppend(a: seq<real>, b: seq<real>)
    ensures Sum(a + b) == Sum(a) + Sum(b)
  {
    if a == [] {
      assert a + b == b;
    } else {
      assert (a + b)[1..] == a[1..] + b;
      SumAppend(a[1..], b);
    }
  }

  /** Taking one element out of the middle of a list takes exactly its value out of the sum. */
  lemma SumRemove(xs: seq<real>, i: nat)
    requires i < |xs|
    ensures Sum(xs) == xs[i] + Sum(xs[..i] + xs[i + 1..])
  {
    SplitAt(xs, i);
    SumAround(xs[..i], xs[i], xs[i + 1..]);
    SumAppend(xs[..i], xs[i + 1..]);
  }

  lemma SumAround(pre: seq<real>, x: real, post: seq<real>)
    ensures Sum(pre + [x] + post) == Sum(pre) + x + Sum(post)
  {
    SumAppend(pre + [x], post);
    SumAppend(pre, [x]);
    assert Sum([x]) == x + Sum([]);
  }

  /** The sum depends only on the multiset of values, not on their order. */
  lemma {:induction false} SumPermutation(xs: seq<real>, ys: seq<real>)
    requires multiset(xs) == multiset(ys)
    ensures Sum(xs) == Sum(ys)
    decreases |xs|
  {
    if xs == [] {
      assert |ys| == |multiset(ys)| == 0;
    } else {
      assert xs[0] in multiset(ys);
      var i :| 0 <= i < |ys| && ys[i] == xs[0];
      var rest := ys[..i] + ys[i + 1..];
      RemoveOne(xs, ys, i);
      SumPermutation(xs[1..], rest);
      SumRemove(ys, i);
    }
  }

  /** Reordering the stored scans reorders, but does not change, the multiset of readings. */
  lemma {:induction false} ReadingsPermutation(a: seq<Scan>, b: seq<Scan>)
    requires multiset(a) == multiset(b)
    ensures multiset(Readings(a)) == multiset(Readings(b))
    decreases |a|
  {
    if a == [] {
      assert |b| == |multiset(b)| == 0;
    } else {
      assert a[0] in multiset(b);
      var i :| 0 <= i < |b| && b[i] == a[0];
      var rest := b[..i] + b[i + 1..];
      RemoveOne(a, b, i);
      ReadingsPermutation(a[1..], rest);
      ReadingsRemove(b, i);
      assert Readings(a) == a[0].rx + Readings(a[1..]);
    }
  }

  /** Matching the first scan of a with scan i of b leaves permutations of each other. */
  lemma RemoveOne<T>(a: seq<T>, b: seq<T>, i: nat)
    requires multiset(a) == multiset(b) && i < |b| && a != [] && b[i] == a[0]
    ensures multiset(a[1..]) == multiset(b[..i] + b[i + 1..])
  {
    assert b == b[..i] + [b[i]] + b[i + 1..];
    assert a == [a[0]] + a[1..];
    calc {
      multiset(a[1..]);
      multiset(a) - multiset{a[0]};
      multiset(b[..i]) + multiset{b[i]} + multiset(b[i + 1..]) - multiset{b[i]};
      multiset(b[..i] + b[i + 1..]);
    }
  }

  /** Taking one scan out of the list takes exactly its readings out of the multiset of readings. */
  lemma ReadingsRemove(b: seq<Scan>, i: nat)
    requires i < |b|
    ensures multiset(Readings(b)) == multiset(b[i].rx) + multiset(Readings(b[..i] + b[i + 1..]))
  {
    ReadingsAt(b, i);
    ReadingsAppend(b[..i], b[i + 1..]);
    MultisetMiddle(Readings(b[..i]), b[i].rx, Readings(b[i + 1..]));
  }

  /** The readings of a list are those before scan i, then scan i's, then those after it. */
  lemma ReadingsAt(b: seq<Scan>, i: nat)
    requires i < |b|
    ensures Readings(b) == Readings(b[..i]) + b[i].rx + Readings(b[i + 1..])
  {
    SplitAt(b, i);
    ReadingsAround(b[..i], b[i], b[i + 1..]);
  }

  lemma ReadingsAround(pre: seq<Scan>, scan: Scan, post: seq<Scan>)
    ensures Readings(pre + [scan] + post) == Readings(pre) + scan.rx + Readings(post)
  {
    ReadingsAppend(pre + [scan], post);
    ReadingsSnoc(pre, scan);
  }

  lemma SplitAt<T>(s: seq<T>, i: nat)
    requires i < |s|
    ensures s == s[..i] + [s[i]] + s[i + 1..]
  {
  }

  lemma MultisetMiddle<T>(p: seq<T>, m: seq<T>, q: seq<T>)
    ensures multiset(p + m + q) == multiset(m) + multiset(p + q)
  {
  }

  /** The average does not depend on the order in which the scans arrived. */
  lemma AverageOrderIndependent(a: seq<Scan>, b: seq<Scan>)
    requires multiset(a) == multiset(b)
    ensures Average(a) == Average(b)
  {
    ReadingsPermutation(a, b);
    assert |Readings(a)| == |multiset(Readings(a))| == |multiset(Readings(b))| == |Readings(b)|;
    SumPermutation(Readings(a), Readings(b));
  }

  lemma {:induction false} SumBounds(xs: seq<real>, lo: real, hi: real)
    requires forall i :: 0 <= i < |xs| ==> lo <= xs[i] <= hi
    ensures (|xs| as real) * lo <= Sum(xs) <= (|xs| as real) * hi
  {
    if xs != [] {
      SumBounds(xs[1..], lo, hi);
      AddBounded((|xs| - 1) as real, Sum(xs[1..]), xs[0], lo, hi);
    }
  }

  lemma AddBounded(n: real, rest: real, x: real, lo: real, hi: real)
    requires n * lo <= rest <= n * hi && lo <= x <= hi
    ensures (n + 1.0) * lo <= x + rest <= (n + 1.0) * hi
  {
  }

  /** When every reading lies in [lo, hi] and there is at least one, so does the average. */
  lemma AverageBounds(scans: seq<Scan>, lo: real, hi: real)
    requires Readings(scans) != []
    requires forall x :: x in Readings(scans) ==> lo <= x <= hi
    ensures lo <= Average(scans) <= hi
  {
    MeanBounds(Readings(scans), lo, hi);
  }

  lemma MeanBounds(xs: seq<real>, lo: real, hi: real)
    requires xs != []
    requires forall x :: x in xs ==> lo <= x <= hi
    ensures lo <= Sum(xs) / (|xs| as real) <= hi
  {
    forall i | 0 <= i < |xs|
      ensures lo <= xs[i] <= hi
    {
      assert xs[i] in xs;
    }
    SumBounds(xs, lo, hi);
    var sum, n := Sum(xs), |xs| as real;
    MeanWithin(sum, n, lo, hi);
  }

  lemma MeanWithin(sum: real, n: real, lo: real, hi: real)
    requires n > 0.0 && n * lo <= sum <= n * hi
    ensures lo <= sum / n <= hi
  {
  }
}

/**
 * The array idioms the modelled code uses (`Array.prototype.filter`,
 * `[...new Set(xs)]`) as functions on sequences, with their properties.
 */
module Seqs {

  /** `xs.filter(keep)`: the elements satisfying `keep`, in their original order. */
  function Filter<T>(keep: T -> bool, xs: seq<T>): (r: seq<T>)
    ensures |r| <= |xs|
    ensures forall i :: 0 <= i < |r| ==> keep(r[i])
  {
    if xs == [] then []
    else if keep(xs[0]) then [xs[0]] + Filter(keep, xs[1..])
    else Filter(keep, xs[1..])
  }

  /** `a` can be obtained from `b` by deleting elements: order is preserved, nothing is invented. */
  ghost predicate IsSubsequence<T>(a: seq<T>, b: seq<T>)
    decreases |b|
  {
    if a == [] then true
    else if b == [] then false
    else if a[0] == b[0] then IsSubsequence(a[1..], b[1..])
    else IsSubsequence(a, b[1..])
  }

  lemma {:induction false} FilterMembership<T>(keep: T -> bool, xs: seq<T>, x: T)
    ensures x in Filter(keep, xs) <==> x in xs && keep(x)
  {
    if xs != [] {
      FilterMembership(keep, xs[1..], x);
      assert xs == [xs[0]] + xs[1..];
    }
  }

  /** `filter` keeps every copy of a kept element and no copy of a dropped one. */
  lemma {:induction false} FilterMultiset<T>(keep: T -> bool, xs: seq<T>)
    ensures forall x :: multiset(Filter(keep, xs))[x] == if keep(x) then multiset(xs)[x] else 0
  {
    if xs != [] {
      FilterMultiset(keep, xs[1..]);
      assert xs == [xs[0]] + xs[1..];
      if keep(xs[0]) {
        assert Filter(keep, xs) == [xs[0]] + Filter(keep, xs[1..]);
      }
    }
  }

  lemma {:induction false} FilterIsSubsequence<T>(keep: T -> bool, xs: seq<T>)
    ensures IsSubsequence(Filter(keep, xs), xs)
  {
    if xs != [] {
      FilterIsSubsequence(keep, xs[1..]);
      var r := Filter(keep, xs[1..]);
      if keep(xs[0]) {
        assert Filter(keep, xs) == [xs[0]] + r;
        assert ([xs[0]] + r)[1..] == r;
      } else {
        SubsequenceOfTail(r, xs);
      }
    }
  }

  /** A subsequence of the tail is a subsequence of the whole. */
  lemma {:induction false} SubsequenceOfTail<T>(a: seq<T>, b: seq<T>)
    requires b != []
    requires IsSubsequence(a, b[1..])
    ensures IsSubsequence(a, b)
    decreases |a| + |b|
  {
    if a != [] && a[0] == b[0] {
      DropHead(a, b[1..]);
    }
  }

  /** Dropping the first element of a subsequence leaves a subsequence. */
  lemma {:induction false} DropHead<T>(a: seq<T>, c: seq<T>)
    requires a != []
    requires IsSubsequence(a, c)
    ensures IsSubsequence(a[1..], c)
    decreases |a| + |c|
  {
    assert c != [];
    if a[0] == c[0] {
      SubsequenceOfTail(a[1..], c);
    } else {
      DropHead(a, c[1..]);
      SubsequenceOfTail(a[1..], c);
    }
  }

  lemma {:induction false} FilterIdempotent<T>(keep: T -> bool, xs: seq<T>)
    ensures Filter(keep, Filter(keep, xs)) == Filter(keep, xs)
  {
    if xs != [] {
      FilterIdempotent(keep, xs[1..]);
      if keep(xs[0]) {
        assert ([xs[0]] + Filter(keep, xs[1..]))[1..] == Filter(keep, xs[1..]);
      }
    }
  }

  lemma {:induction false} FilterKeepsAll<T>(keep: T -> bool, xs: seq<T>)
    requires forall i :: 0 <= i < |xs| ==> keep(xs[i])
    ensures Filter(keep, xs) == xs
  {
    if xs != [] {
      FilterKeepsAll(keep, xs[1..]);
      assert [xs[0]] + xs[1..] == xs;
    }
  }

  /** Filtering out exactly one element removes just that position. */
  lemma {:induction false} FilterDropsOne<T>(keep: T -> bool, xs: seq<T>, k: int)
    requires 0 <= k < |xs| && !keep(xs[k])
    requires forall j :: 0 <= j < |xs| && j != k ==> keep(xs[j])
    ensures Filter(keep, xs) == xs[..k] + xs[k + 1..]
  {
    if k == 0 {
      FilterKeepsAll(keep, xs[1..]);
    } else {
      FilterDropsOne(keep, xs[1..], k - 1);
      assert xs[1..][..k - 1] == xs[1..k];
      assert xs[1..][k..] == xs[k + 1..];
      assert [xs[0]] + xs[1..k] == xs[..k];
    }
  }

  /** `[...new Set(xs)]`: the distinct elements of `xs` in order of first occurrence. */
  function Dedup<T(==)>(xs: seq<T>): (r: seq<T>)
    decreases |xs|
  {
    if xs == [] then []
    else
      var r := Dedup(xs[..|xs| - 1]);
      if xs[|xs| - 1] in r then r else r + [xs[|xs| - 1]]
  }

  ghost predicate NoDuplicates<T>(xs: seq<T>) {
    forall i, j :: 0 <= i < j < |xs| ==> xs[i] != xs[j]
  }

  lemma {:induction false} DedupSpec<T>(xs: seq<T>)
    ensures NoDuplicates(Dedup(xs))
    ensures forall x :: x in Dedup(xs) <==> x in xs
    ensures |Dedup(xs)| <= |xs|
    decreases |xs|
  {
    if xs != [] {
      var init := xs[..|xs| - 1];
      DedupSpec(init);
      assert xs == init + [xs[|xs| - 1]];
    }
  }

  /** The distinct elements of a sequence, as a set. */
  ghost function Elements<T>(xs: seq<T>): set<T>
  {
    set x | x in xs
  }

  /** Filtering a sequence without repeats leaves one without repeats. */
  lemma {:induction false} FilterKeepsDistinct<T>(keep: T -> bool, xs: seq<T>)
    ensures NoDuplicates(xs) ==> NoDuplicates(Filter(keep, xs))
  {
    if xs != [] && NoDuplicates(xs) {
      var t := xs[1..];
      assert NoDuplicates(t) by {
        forall i, j | 0 <= i < j < |t| ensures t[i] != t[j] {
          assert t[i] == xs[i + 1] && t[j] == xs[j + 1];
        }
      }
      FilterKeepsDistinct(keep, t);
      FilterMembership(keep, t, xs[0]);
      assert xs[0] !in t by {
        forall k | 0 <= k < |t| ensures t[k] != xs[0] {
          assert t[k] == xs[k + 1];
        }
      }
    }
  }

  /** A sequence without repeats has as many distinct elements as positions. */
  lemma {:induction false} DistinctCount<T>(xs: seq<T>)
    requires NoDuplicates(xs)
    ensures |Elements(xs)| == |xs|
  {
    if xs != [] {
      var t := xs[1..];
      assert NoDuplicates(t) by {
        forall i, j | 0 <= i < j < |t| ensures t[i] != t[j] {
          assert t[i] == xs[i + 1] && t[j] == xs[j + 1];
        }
      }
      DistinctCount(t);
      assert Elements(xs) == {xs[0]} + Elements(t) by {
        assert xs == [xs[0]] + t;
      }
      assert xs[0] !in Elements(t) by {
        forall k | 0 <= k < |t| ensures t[k] != xs[0] {
          assert t[k] == xs[k + 1];
        }
      }
    }
  }

  /** `new Set(xs).size`: the deduplicated sequence has one entry per distinct element. */
  lemma DedupCount<T>(xs: seq<T>)
    ensures |Dedup(xs)| == |Elements(xs)|
  {
    DedupSpec(xs);
    DistinctCount(Dedup(xs));
    assert Elements(Dedup(xs)) == Elements(xs);
  }

  /** The position of the first occurrence of `x` in `xs`. */
  function FirstIndex<T(==)>(xs: seq<T>, x: T): (k: nat)
    requires x in xs
    ensures k < |xs| && xs[k] == x && x !in xs[..k]
  {
    if xs[0] == x then 0
    else
      var k := 1 + FirstIndex(xs[1..], x);
      assert xs[..k] == [xs[0]] + xs[1..][..k - 1];
      k
  }

  /** Appending an element leaves the first occurrences of the earlier ones where they were. */
  lemma {:induction false} FirstIndexAppend<T>(xs: seq<T>, z: T, y: T)
    requires y in xs
    ensures FirstIndex(xs + [z], y) == FirstIndex(xs, y)
  {
    if xs[0] != y {
      assert xs == [xs[0]] + xs[1..];
      assert (xs + [z])[1..] == xs[1..] + [z];
      FirstIndexAppend(xs[1..], z, y);
    }
  }

  /** `[...new Set(xs)]` lists the distinct elements in the order of their first occurrence. */
  lemma {:induction false} DedupFirstOccurrence<T>(xs: seq<T>)
    ensures forall x :: x in Dedup(xs) ==> x in xs
    ensures forall i, j :: 0 <= i < j < |Dedup(xs)| ==> FirstIndex(xs, Dedup(xs)[i]) < FirstIndex(xs, Dedup(xs)[j])
    decreases |xs|
  {
    DedupSpec(xs);
    if xs != [] {
      var init := xs[..|xs| - 1];
      var z := xs[|xs| - 1];
      assert xs == init + [z];
      DedupFirstOccurrence(init);
      DedupSpec(init);
      var d := Dedup(init);
      forall y | y in d ensures FirstIndex(xs, y) == FirstIndex(init, y) && FirstIndex(xs, y) < |init| {
        FirstIndexAppend(init, z, y);
      }
      if z !in d {
        assert z !in init;
        assert FirstIndex(xs, z) == |init|;
        assert Dedup(xs) == d + [z];
      } else {
        assert Dedup(xs) == d;
      }
    }
  }
}

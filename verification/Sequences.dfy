/**
 Lists: sums, concatenation, repetition and order.
 */
module Sequences {
  import opened Rounding

  function Sum<T>(xs: seq<T>, f: T -> nat): nat {
    if xs == [] then 0 else Sum(xs[..|xs| - 1], f) + f(xs[|xs| - 1])
  }

  function Flat<T>(groups: seq<seq<T>>): seq<T> {
    if groups == [] then [] else Flat(groups[..|groups| - 1]) + groups[|groups| - 1]
  }

  lemma {:induction false} SumAppend<T>(xs: seq<T>, ys: seq<T>, f: T -> nat)
    ensures Sum(xs + ys, f) == Sum(xs, f) + Sum(ys, f)
  {
    if ys == [] {
      assert xs + ys == xs;
    } else {
      assert (xs + ys)[..|xs + ys| - 1] == xs + ys[..|ys| - 1];
      SumAppend(xs, ys[..|ys| - 1], f);
    }
  }

  lemma {:induction false} FlatAppend<T>(a: seq<seq<T>>, b: seq<seq<T>>)
    ensures Flat(a + b) == Flat(a) + Flat(b)
  {
    if b == [] {
      assert a + b == a;
    } else {
      assert (a + b)[..|a + b| - 1] == a + b[..|b| - 1];
      FlatAppend(a, b[..|b| - 1]);
    }
  }

  function Without<T>(xs: seq<T>, i: nat): seq<T>
    requires i < |xs|
  {
    xs[..i] + xs[i + 1..]
  }

  lemma WithoutMultiset<T>(xs: seq<T>, i: nat)
    requires i < |xs|
    ensures multiset(xs) == multiset(Without(xs, i)) + multiset{xs[i]}
    ensures multiset(Without(xs, i)) == multiset(xs) - multiset{xs[i]}
  {
    assert xs == xs[..i] + ([xs[i]] + xs[i + 1..]);
  }

  lemma PrefixMultiset<T>(xs: seq<T>, i: nat)
    requires i < |xs|
    ensures multiset(xs[..i + 1]) == multiset(xs[..i]) + multiset{xs[i]}
  {
    assert xs[..i + 1] == xs[..i] + [xs[i]];
  }

  lemma SumSplit<T>(xs: seq<T>, i: nat, f: T -> nat)
    requires i <= |xs|
    ensures Sum(xs, f) == Sum(xs[..i], f) + Sum(xs[i..], f)
  {
    SumAppend(xs[..i], xs[i..], f);
    assert xs[..i] + xs[i..] == xs;
  }

  lemma SumOne<T>(xs: seq<T>, f: T -> nat)
    ensures |xs| == 1 ==> Sum(xs, f) == f(xs[0])
  {
  }

  lemma {:induction false} WithoutSum<T>(xs: seq<T>, i: nat, f: T -> nat)
    requires i < |xs|
    ensures Sum(xs, f) == Sum(Without(xs, i), f) + f(xs[i])
  {
    var most := xs[..|xs| - 1];
    if i == |most| {
      assert Without(xs, i) == most;
    } else {
      assert Without(xs, i) == Without(most, i) + [xs[|most|]];
      assert Without(xs, i)[..|most| - 1] == Without(most, i);
      WithoutSum(most, i, f);
    }
  }

  /** A sum does not depend on the order of the list. */
  lemma {:induction false} SumPermuted<T>(xs: seq<T>, ys: seq<T>, f: T -> nat)
    requires multiset(xs) == multiset(ys)
    ensures Sum(xs, f) == Sum(ys, f)
    decreases |xs|
  {
    if xs == [] {
      assert |multiset(ys)| == 0;
    } else {
      var last := |xs| - 1;
      assert xs[last] in multiset(ys);
      var i :| 0 <= i < |ys| && ys[i] == xs[last];
      WithoutMultiset(xs, last);
      WithoutMultiset(ys, i);
      SumPermuted(Without(xs, last), Without(ys, i), f);
      WithoutSum(xs, last, f);
      WithoutSum(ys, i, f);
    }
  }

  lemma {:induction false} SumAtLeast<T>(xs: seq<T>, f: T -> nat, x: T)
    requires x in xs
    ensures f(x) <= Sum(xs, f)
  {
    if x in xs[..|xs| - 1] {
      SumAtLeast(xs[..|xs| - 1], f, x);
    }
  }

  /** Groups that add up to at most `bound` each. */
  lemma {:induction false} FlatAtMost<T>(groups: seq<seq<T>>, f: T -> nat, bound: nat)
    requires forall g | g in groups :: Sum(g, f) <= bound
    ensures Sum(Flat(groups), f) <= |groups| * bound
  {
    if groups != [] {
      FlatAtMost(groups[..|groups| - 1], f, bound);
      SumAppend(Flat(groups[..|groups| - 1]), groups[|groups| - 1], f);
      MulStep(|groups| - 1, bound);
    }
  }

  /** Groups that add up to at least `bound` each. */
  lemma {:induction false} FlatAtLeast<T>(groups: seq<seq<T>>, f: T -> nat, bound: nat)
    requires forall g | g in groups :: Sum(g, f) >= bound
    ensures Sum(Flat(groups), f) >= |groups| * bound
  {
    if groups != [] {
      FlatAtLeast(groups[..|groups| - 1], f, bound);
      SumAppend(Flat(groups[..|groups| - 1]), groups[|groups| - 1], f);
      MulStep(|groups| - 1, bound);
    }
  }

  lemma FlatSplit<T>(groups: seq<seq<T>>, p: nat, f: T -> nat)
    requires p <= |groups|
    ensures Sum(Flat(groups), f) == Sum(Flat(groups[..p]), f) + Sum(Flat(groups[p..]), f)
  {
    assert groups == groups[..p] + groups[p..];
    FlatAppend(groups[..p], groups[p..]);
    SumAppend(Flat(groups[..p]), Flat(groups[p..]), f);
  }

  /** Groups of two or more items. */
  lemma {:induction false} FlatLength<T>(groups: seq<seq<T>>)
    requires forall g | g in groups :: |g| >= 2
    ensures |Flat(groups)| >= 2 * |groups|
  {
    if groups != [] {
      FlatLength(groups[..|groups| - 1]);
    }
  }

  lemma {:induction false} FlatMember<T>(groups: seq<seq<T>>, x: T)
    requires x in Flat(groups)
    ensures exists j | 0 <= j < |groups| :: x in groups[j]
  {
    if x !in groups[|groups| - 1] {
      FlatMember(groups[..|groups| - 1], x);
      var j :| 0 <= j < |groups| - 1 && x in groups[..|groups| - 1][j];
      assert x in groups[j];
    }
  }

  ghost predicate Decreasing<T>(items: seq<T>, size: T -> nat) {
    forall i, j | 0 <= i < j < |items| :: size(items[i]) >= size(items[j])
  }

  method SortDecreasing<T>(items: seq<T>, size: T -> nat) returns (sorted: seq<T>)
    ensures multiset(sorted) == multiset(items) && Decreasing(sorted, size)
  {
    sorted := [];
    for i := 0 to |items|
      invariant multiset(sorted) == multiset(items[..i]) && Decreasing(sorted, size)
    {
      PrefixMultiset(items, i);
      sorted := InsertDecreasing(sorted, items[i], size);
    }
    assert items[..|items|] == items;
  }

  method InsertDecreasing<T>(sorted: seq<T>, x: T, size: T -> nat) returns (more: seq<T>)
    requires Decreasing(sorted, size)
    ensures multiset(more) == multiset(sorted) + multiset{x} && Decreasing(more, size)
  {
    var j := 0;
    while j < |sorted| && size(sorted[j]) >= size(x)
      invariant j <= |sorted| && forall k | 0 <= k < j :: size(sorted[k]) >= size(x)
    {
      j := j + 1;
    }
    more := sorted[..j] + [x] + sorted[j..];
    assert Without(more, j) == sorted;
    WithoutMultiset(more, j);
    InsertKeepsOrder(sorted, j, x, more, size);
  }

  lemma InsertKeepsOrder<T>(sorted: seq<T>, j: nat, x: T, more: seq<T>, size: T -> nat)
    requires Decreasing(sorted, size) && j <= |sorted| && more == sorted[..j] + [x] + sorted[j..]
    requires (forall k | 0 <= k < j :: size(sorted[k]) >= size(x)) && (j < |sorted| ==> size(sorted[j]) < size(x))
    ensures Decreasing(more, size)
  {
  }

  ghost predicate Distinct<T>(xs: seq<T>) {
    forall i, j | 0 <= i < j < |xs| :: xs[i] != xs[j]
  }

  lemma {:induction false} FlatWithout<T>(groups: seq<seq<T>>, k: nat)
    requires k < |groups|
    ensures multiset(Flat(groups)) == multiset(Flat(Without(groups, k))) + multiset(groups[k])
  {
    var front, back := groups[..k], groups[k + 1..];
    assert groups == front + ([groups[k]] + back);
    FlatAppend(front, [groups[k]] + back);
    FlatAppend([groups[k]], back);
    FlatAppend(front, back);
    assert [groups[k]][..0] == [];
    assert Flat([groups[k]]) == groups[k];
  }

  lemma {:induction false} FlatUpdate<T>(groups: seq<seq<T>>, j: nat, x: T)
    requires j < |groups|
    ensures multiset(Flat(groups[j := groups[j] + [x]])) == multiset(Flat(groups)) + multiset{x}
  {
    var more := groups[j := groups[j] + [x]];
    FlatWithout(groups, j);
    FlatWithout(more, j);
    assert Without(more, j) == Without(groups, j);
  }

  lemma SubsetOfEqualSize<T>(a: multiset<T>, b: multiset<T>)
    requires a <= b && |a| >= |b|
    ensures a == b
  {
    assert b == a + (b - a);
    assert |b - a| == 0;
  }

  /** A list without repetitions is no longer than a list that has all its members. */
  lemma {:induction false} DistinctIsShorter<T>(xs: seq<T>, ys: seq<T>)
    requires Distinct(xs) && forall x | x in xs :: x in ys
    ensures |xs| <= |ys|
  {
    if xs != [] {
      var last := xs[|xs| - 1];
      assert last in xs;
      var i :| 0 <= i < |ys| && ys[i] == last;
      WithoutMultiset(ys, i);
      forall x | x in xs[..|xs| - 1] ensures x in Without(ys, i) {
        assert x in xs && x in multiset(ys) && x != last;
      }
      DistinctIsShorter(xs[..|xs| - 1], Without(ys, i));
    }
  }

  lemma TwiceCounted<T>(xs: seq<T>, i: nat, j: nat)
    requires i < j < |xs| && xs[i] == xs[j]
    ensures multiset(xs)[xs[i]] >= 2
  {
    WithoutMultiset(xs, j);
    assert Without(xs, j)[i] == xs[i];
    assert xs[i] in Without(xs, j);
  }

  lemma OnceCounted<T>(xs: seq<T>, x: T)
    requires Distinct(xs)
    ensures multiset(xs)[x] <= 1
  {
    if x in xs {
      var i :| 0 <= i < |xs| && xs[i] == x;
      WithoutMultiset(xs, i);
      assert x !in Without(xs, i);
    }
  }

  /** A list without repetitions has no repetitions in any part of it. */
  lemma DistinctPart<T>(xs: seq<T>, part: seq<T>)
    requires Distinct(xs) && multiset(part) <= multiset(xs)
    ensures Distinct(part) && forall x | x in part :: x in xs
  {
    forall x | x in part ensures x in xs {
      assert x in multiset(part) && x in multiset(xs);
    }
    forall i, j | 0 <= i < j < |part| ensures part[i] != part[j] {
      if part[i] == part[j] {
        TwiceCounted(part, i, j);
        OnceCounted(xs, part[i]);
      }
    }
  }
}

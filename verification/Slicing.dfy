/**
 How the tasks of one run are divided among parallel CI jobs.
 */
module Slicing {
  import opened Rounding

  datatype Sliced<+T> = Tasks(list: seq<T>) | InvalidJobIndex(index: nat, total: nat)

  /** The tasks of job `index`. A start past the end leaves the whole list in place. */
  function Slice<T>(tasks: seq<T>, index: nat, total: nat): Sliced<T>
    requires total > 0
  {
    if index > total - 1 then InvalidJobIndex(index, total)
    else
      var size := DivCeil(|tasks|, total);
      var start := if index == 0 then 0 else size * index;
      var stop := if index == 0 then size else if index == total - 1 then |tasks| else size * (index + 1);
      if start >= |tasks| then Tasks(tasks)
      else if stop < |tasks| then Tasks(tasks[start..stop])
      else Tasks(tasks[start..])
  }

  /** What the first `k` jobs run, one after the other. */
  function Combined<T>(tasks: seq<T>, total: nat, k: nat): seq<T>
    requires k <= total && total > 0
  {
    if k == 0 then [] else Combined(tasks, total, k - 1) + Slice(tasks, k - 1, total).list
  }

  function Least(a: nat, b: nat): nat {
    if a < b then a else b
  }

  /** A job with a start inside the list gets the next `size` tasks, or what is left of them. */
  lemma SliceIsChunk<T>(tasks: seq<T>, index: nat, total: nat)
    requires index < total && DivCeil(|tasks|, total) * index < |tasks|
    ensures var size := DivCeil(|tasks|, total);
      Slice(tasks, index, total) == Tasks(tasks[size * index..Least(size * (index + 1), |tasks|)])
  {
    ChunkEnds(|tasks|, index, total);
    var size := DivCeil(|tasks|, total);
    var start, stop := size * index, size * (index + 1);
    if index == 0 {
      assert Slice(tasks, index, total) == if size < |tasks| then Tasks(tasks[..size]) else Tasks(tasks);
    } else if index == total - 1 {
      assert Slice(tasks, index, total) == Tasks(tasks[start..]);
    }
  }

  /** A job that starts past the end keeps the whole list, and a job that does not exist is refused. */
  lemma SlicePastEnd<T>(tasks: seq<T>, index: nat, total: nat)
    requires total > 0
    ensures index >= total ==> Slice(tasks, index, total) == InvalidJobIndex(index, total)
    ensures index < total && DivCeil(|tasks|, total) * index >= |tasks| ==> Slice(tasks, index, total) == Tasks(tasks)
  {
  }

  lemma ChunkEnds(n: nat, index: nat, total: nat)
    requires index < total && n > 0
    ensures var size := DivCeil(n, total);
      && size * (index + 1) == size * index + size
      && (index == 0 ==> size * index == 0)
      && (index == total - 1 ==> n <= size * (index + 1))
  {
    DivCeilBounds(n, total);
  }

  /** Jobs that start inside the list get consecutive slices that add up to a prefix of it. */
  lemma {:induction false} SlicesAddUp<T>(tasks: seq<T>, total: nat, k: nat)
    requires k <= total && total > 0 && (k > 0 ==> DivCeil(|tasks|, total) * (k - 1) < |tasks|)
    ensures Combined(tasks, total, k) == tasks[..Least(DivCeil(|tasks|, total) * k, |tasks|)]
  {
    var size := DivCeil(|tasks|, total);
    if k > 0 {
      var start, stop := size * (k - 1), Least(size * k, |tasks|);
      assert start <= size * k;
      if k > 1 {
        assert size * (k - 2) <= start;
      }
      SlicesAddUp(tasks, total, k - 1);
      SliceIsChunk(tasks, k - 1, total);
      assert tasks[..start] + tasks[start..stop] == tasks[..stop];
    }
  }

  lemma {:induction false} CombinedGrows<T>(tasks: seq<T>, total: nat, j: nat, k: nat)
    requires j <= k <= total && total > 0
    ensures |Combined(tasks, total, j)| <= |Combined(tasks, total, k)|
  {
    if j < k {
      CombinedGrows(tasks, total, j, k - 1);
    }
  }

  /** How many jobs start inside the list. */
  lemma JobsInside(n: nat, total: nat) returns (k: nat)
    requires total > 0 && 0 < n <= DivCeil(n, total) * (total - 1)
    ensures 0 < k < total && DivCeil(n, total) * (k - 1) < n <= DivCeil(n, total) * k
  {
    k := total - 1;
    while DivCeil(n, total) * (k - 1) >= n
      invariant 0 < k < total && DivCeil(n, total) * k >= n
    {
      k := k - 1;
    }
  }

  /** The list, so many times over. */
  function Times<T>(tasks: seq<T>, n: nat): seq<T> {
    if n == 0 then [] else Times(tasks, n - 1) + tasks
  }

  lemma LaterStart(size: nat, a: nat, b: nat)
    requires a <= b
    ensures size * a <= size * b
  {
    assert size * b == size * a + size * (b - a);
  }

  lemma RunOnceMore<T>(tasks: seq<T>, total: nat, m: nat, n: nat)
    requires 0 < m <= total && n > 0 && Slice(tasks, m - 1, total) == Tasks(tasks)
    requires Combined(tasks, total, m - 1) == tasks + Times(tasks, n - 1)
    ensures Combined(tasks, total, m) == tasks + Times(tasks, n)
  {
    assert tasks + (Times(tasks, n - 1) + tasks) == (tasks + Times(tasks, n - 1)) + tasks;
  }

  /** Each job that starts past the end runs the whole list once more. */
  lemma {:induction false} PastEndRepeats<T>(tasks: seq<T>, total: nat, k: nat, m: nat)
    requires k <= m <= total && total > 0 && DivCeil(|tasks|, total) * k >= |tasks| && Combined(tasks, total, k) == tasks
    ensures Combined(tasks, total, m) == tasks + Times(tasks, m - k)
  {
    if m > k {
      PastEndRepeats(tasks, total, k, m - 1);
      LaterStart(DivCeil(|tasks|, total), k, m - 1);
      SlicePastEnd(tasks, m - 1, total);
      RunOnceMore(tasks, total, m, m - k);
    }
  }

  lemma OnceOrMore<T>(tasks: seq<T>, all: seq<T>, once: bool)
    requires if once then all == tasks else |all| > |tasks|
    ensures multiset(all) == multiset(tasks) <==> once
  {
    assert |multiset(all)| == |all| && |multiset(tasks)| == |tasks|;
  }

  lemma JobsCover<T>(tasks: seq<T>, total: nat)
    requires total > 0 && tasks != [] && DivCeil(|tasks|, total) * (total - 1) < |tasks|
    ensures Combined(tasks, total, total) == tasks
  {
    DivCeilBounds(|tasks|, total);
    SlicesAddUp(tasks, total, total);
  }

  /** If the last job starts past the end, the whole list is run at least twice. */
  lemma JobsRepeat<T>(tasks: seq<T>, total: nat)
    requires total > 0 && tasks != [] && DivCeil(|tasks|, total) * (total - 1) >= |tasks|
    ensures |Combined(tasks, total, total)| >= 2 * |tasks|
  {
    DivCeilBounds(|tasks|, total);
    var k := JobsInside(|tasks|, total);
    SlicesAddUp(tasks, total, k);
    CombinedGrows(tasks, total, k, total - 1);
    assert Slice(tasks, total - 1, total) == Tasks(tasks);
  }

  /**
   Together the jobs run every task exactly once if and only if the last job starts inside the
   list. Otherwise some job runs the whole list again.
   */
  lemma JobsPartition<T>(tasks: seq<T>, total: nat)
    requires total > 0 && tasks != []
    ensures multiset(Combined(tasks, total, total)) == multiset(tasks) <==> DivCeil(|tasks|, total) * (total - 1) < |tasks|
    ensures DivCeil(|tasks|, total) * (total - 1) < |tasks| ==> Combined(tasks, total, total) == tasks
  {
    var inside := DivCeil(|tasks|, total) * (total - 1) < |tasks|;
    if inside {
      JobsCover(tasks, total);
    } else {
      JobsRepeat(tasks, total);
    }
    OnceOrMore(tasks, Combined(tasks, total, total), inside);
  }

  /** How often the list is run: once by the jobs that start inside it, and once by each of the others. */
  lemma JobsRunTimes<T>(tasks: seq<T>, total: nat) returns (inside: nat)
    requires total > 0 && tasks != []
    ensures 0 < inside <= total && forall k | 0 <= k < total :: DivCeil(|tasks|, total) * k < |tasks| <==> k < inside
    ensures Combined(tasks, total, total) == tasks + Times(tasks, total - inside)
  {
    var size := DivCeil(|tasks|, total);
    if size * (total - 1) < |tasks| {
      inside := total;
      JobsCover(tasks, total);
    } else {
      DivCeilBounds(|tasks|, total);
      inside := JobsInside(|tasks|, total);
      SlicesAddUp(tasks, total, inside);
      assert tasks[..|tasks|] == tasks;
      PastEndRepeats(tasks, total, inside, total);
    }
    forall k | 0 <= k < total ensures size * k < |tasks| <==> k < inside {
      if k < inside {
        LaterStart(size, k, inside - 1);
      } else {
        LaterStart(size, inside, k);
      }
    }
  }

  /** Five tasks over four jobs: the last job starts past the end and runs all five. */
  lemma LastJobRepeats()
    ensures Slice([1, 2, 3, 4, 5], 3, 4) == Tasks([1, 2, 3, 4, 5])
    ensures Slice([1, 2, 3, 4, 5], 2, 4) == Tasks([5])
  {
  }
}

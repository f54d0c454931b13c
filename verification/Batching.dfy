/**
 How blobs are packed into batches: first-fit-decreasing by size, or in chunks.
 */
module Batching {
  import opened Rounding
  import opened Sequences

  const BUFFER: nat := 300
  const CHUNK_TARGET_SIZE: nat := 100
  const BLOCKING_THREAD_COUNT: nat := 512

  datatype Batch<T> = Batch(items: seq<T>, size: nat, stream: bool, index: nat, total: nat)

  // ---- First fit decreasing ----

  function Weight<T>(size: T -> nat): T -> nat {
    x => size(x) + BUFFER
  }

  /** Counts the items of more than half the limit. */
  function Big<T>(size: T -> nat, max: nat): T -> nat {
    x => if 2 * (size(x) + BUFFER) > max then 1 else 0
  }

  ghost predicate Fits<T>(groups: seq<seq<T>>, size: T -> nat, max: nat) {
    forall g | g in groups :: Sum(g, Weight(size)) <= max
  }

  /**
   Packed first fit, largest first: no group could have taken an item of a later one, and a group
   starts with an item that is at least as large as any other in it and in later groups.
   */
  ghost predicate Packed<T>(groups: seq<seq<T>>, size: T -> nat, max: nat) {
    && (forall i | 0 <= i < |groups| :: groups[i] != [])
    && (forall i, j | 0 <= i < j < |groups| :: forall x | x in groups[j] :: Sum(groups[i], Weight(size)) + Weight(size)(x) > max)
    && (forall i, j | 0 <= i <= j < |groups| :: forall x | x in groups[j] :: groups[i] != [] && size(x) <= size(groups[i][0]))
  }

  /** Big items weigh more than half the limit each. */
  lemma {:induction false} BigSum<T>(g: seq<T>, size: T -> nat, max: nat)
    ensures 2 * Sum(g, Weight(size)) >= Sum(g, Big(size, max)) * (max + 1)
  {
    if g != [] {
      BigSum(g[..|g| - 1], size, max);
      var b := Sum(g[..|g| - 1], Big(size, max));
      assert (b + 1) * (max + 1) == b * (max + 1) + max + 1;
    }
  }

  /** A group within the limit holds at most one big item. */
  lemma OneBig<T>(g: seq<T>, size: T -> nat, max: nat)
    requires Sum(g, Weight(size)) <= max
    ensures Sum(g, Big(size, max)) <= 1
  {
    BigSum(g, size, max);
    var b := Sum(g, Big(size, max));
    if b >= 2 {
      MulMono(2, b, max + 1);
    }
  }

  /** If the first `p` groups start with a big item, any other grouping has at least `p` groups. */
  lemma BigItemsBound<T>(groups: seq<seq<T>>, others: seq<seq<T>>, size: T -> nat, max: nat, p: nat)
    requires p <= |groups| && Fits(others, size, max) && multiset(Flat(groups)) == multiset(Flat(others))
    requires forall i | 0 <= i < p :: groups[i] != [] && Big(size, max)(groups[i][0]) == 1
    ensures p <= |others|
  {
    var big := Big(size, max);
    forall g | g in groups[..p] ensures Sum(g, big) >= 1 {
      SumAtLeast(g, big, g[0]);
    }
    FlatAtLeast(groups[..p], big, 1);
    FlatSplit(groups, p, big);
    SumPermuted(Flat(groups), Flat(others), big);
    forall g | g in others ensures Sum(g, big) <= 1 {
      OneBig(g, size, max);
    }
    FlatAtMost(others, big, 1);
  }

  /** Pairing each of the first groups with one item that it could not take. */
  lemma {:induction false} PairsExceed<T>(groups: seq<seq<T>>, items: seq<T>, size: T -> nat, max: nat)
    requires |groups| <= |items|
    requires forall g, x | g in groups && x in items :: Sum(g, Weight(size)) + Weight(size)(x) > max
    ensures Sum(Flat(groups), Weight(size)) + Sum(items[..|groups|], Weight(size)) >= |groups| * (max + 1)
  {
    if groups != [] {
      var n := |groups| - 1;
      PairsExceed(groups[..n], items, size, max);
      SumAppend(Flat(groups[..n]), groups[n], Weight(size));
      assert Sum(items[..n + 1], Weight(size)) == Sum(items[..n], Weight(size)) + Weight(size)(items[n]) by {
        assert items[..n + 1][..n] == items[..n];
      }
      assert items[n] in items && groups[n] in groups;
      MulStep(n, max + 1);
    }
  }

  /** A single item of at most half the limit leaves room for another such item. */
  lemma TwoItems<T>(groups: seq<seq<T>>, size: T -> nat, max: nat, p: nat, i: nat)
    requires Packed(groups, size, max) && p <= i < |groups| - 1 && Big(size, max)(groups[p][0]) == 0
    ensures |groups[i]| >= 2
  {
    var last := groups[|groups| - 1];
    assert last[0] in last && groups[i][0] in groups[i];
    assert size(last[0]) <= size(groups[p][0]) && size(groups[i][0]) <= size(groups[p][0]);
    assert Sum(groups[i], Weight(size)) + Weight(size)(last[0]) > max;
    SumOne(groups[i], Weight(size));
  }

  /** From a group that starts with no big item on, all but the last hold two items or more. */
  lemma TailLong<T>(groups: seq<seq<T>>, size: T -> nat, max: nat, p: nat)
    requires Packed(groups, size, max) && p < |groups| && Big(size, max)(groups[p][0]) == 0
    ensures |Flat(groups[p..])| >= 2 * (|groups| - 1 - p) + 1
  {
    var k := |groups|;
    forall g | g in groups[p..k - 1] ensures |g| >= 2 {
      var i :| p <= i < k - 1 && g == groups[i];
      TwoItems(groups, size, max, p, i);
    }
    FlatLength(groups[p..k - 1]);
    assert groups[p..][..|groups[p..]| - 1] == groups[p..k - 1];
  }

  /** No group could have taken an item of the groups from `p` on. */
  lemma TailRejected<T>(groups: seq<seq<T>>, size: T -> nat, max: nat, p: nat)
    requires Packed(groups, size, max) && p <= |groups|
    ensures forall g, x | g in groups[..p] && x in Flat(groups[p..]) :: Sum(g, Weight(size)) + Weight(size)(x) > max
  {
    forall g, x | g in groups[..p] && x in Flat(groups[p..]) ensures Sum(g, Weight(size)) + Weight(size)(x) > max {
      FlatMember(groups[p..], x);
      var j :| 0 <= j < |groups[p..]| && x in groups[p..][j];
      var i :| 0 <= i < p && g == groups[i];
      assert x in groups[p + j];
    }
  }

  /** Together the items weigh more than the first groups could hold. */
  lemma HeadAndTail<T>(groups: seq<seq<T>>, size: T -> nat, max: nat, p: nat)
    requires Packed(groups, size, max) && p < |groups| && p <= |Flat(groups[p..])|
    ensures Sum(Flat(groups), Weight(size)) >= p * (max + 1)
  {
    var w, tail := Weight(size), Flat(groups[p..]);
    HeadExceeds(groups, size, max, p);
    FlatSplit(groups, p, w);
    SumSplit(tail, p, w);
  }

  lemma HeadExceeds<T>(groups: seq<seq<T>>, size: T -> nat, max: nat, p: nat)
    requires Packed(groups, size, max) && p < |groups| && p <= |Flat(groups[p..])|
    ensures Sum(Flat(groups[..p]), Weight(size)) + Sum(Flat(groups[p..])[..p], Weight(size)) >= p * (max + 1)
  {
    TailRejected(groups, size, max, p);
    PairsExceed(groups[..p], Flat(groups[p..]), size, max);
  }

  /** If group `p` starts with no big item, the items from there on outnumber the groups before it. */
  lemma SmallItemsBound<T>(groups: seq<seq<T>>, others: seq<seq<T>>, size: T -> nat, max: nat, p: nat)
    requires Packed(groups, size, max) && Fits(others, size, max) && multiset(Flat(groups)) == multiset(Flat(others))
    requires p < |groups| && 3 * p <= 2 * |groups| - 1 && Big(size, max)(groups[p][0]) == 0
    ensures p < |others|
  {
    var total := Sum(Flat(groups), Weight(size));
    assert p * (max + 1) <= total by {
      TailLong(groups, size, max, p);
      HeadAndTail(groups, size, max, p);
    }
    assert total <= |others| * max by {
      SumPermuted(Flat(groups), Flat(others), Weight(size));
      FlatAtMost(others, Weight(size), max);
    }
    assert total > 0 by {
      assert groups[..|groups|] == groups;
      SumAppend(Flat(groups[..|groups| - 1]), groups[|groups| - 1], Weight(size));
    }
    Exceeds(|others|, p, max, total);
  }

  lemma Exceeds(m: nat, p: nat, max: nat, total: nat)
    requires total <= m * max && p * (max + 1) <= total && total > 0
    ensures p < m
  {
  }

  /**
   First-fit-decreasing uses at most half as many groups again as any other way to group the same
   items within the limit.
   */
  lemma PackingBound<T>(groups: seq<seq<T>>, others: seq<seq<T>>, size: T -> nat, max: nat)
    requires Packed(groups, size, max) && Fits(others, size, max) && multiset(Flat(groups)) == multiset(Flat(others))
    ensures 2 * |groups| <= 3 * |others|
  {
    if groups != [] {
      var p := (2 * |groups| - 1) / 3;
      if Big(size, max)(groups[p][0]) == 1 {
        forall i | 0 <= i <= p ensures Big(size, max)(groups[i][0]) == 1 {
          assert groups[p][0] in groups[p];
        }
        BigItemsBound(groups, others, size, max, p + 1);
      } else {
        SmallItemsBound(groups, others, size, max, p);
      }
    }
  }

  // ---- The operations ----

  ghost function Contents<T>(batches: seq<Batch<T>>): seq<seq<T>> {
    seq(|batches|, i requires 0 <= i < |batches| => batches[i].items)
  }

  /** `index` counts from one, and `total` is the number of batches. */
  ghost predicate Numbered<T>(batches: seq<Batch<T>>) {
    forall i | 0 <= i < |batches| :: batches[i].index == i + 1 && batches[i].total == |batches|
  }

  method Number<T>(unnumbered: seq<Batch<T>>) returns (batches: seq<Batch<T>>)
    ensures Numbered(batches) && |batches| == |unnumbered| && Contents(batches) == Contents(unnumbered)
    ensures forall i | 0 <= i < |batches| :: batches[i] == unnumbered[i].(index := i + 1, total := |batches|)
  {
    batches := unnumbered;
    for i := 0 to |batches|
      invariant |batches| == |unnumbered|
      invariant forall j | 0 <= j < i :: batches[j] == unnumbered[j].(index := j + 1, total := |batches|)
      invariant forall j | i <= j < |batches| :: batches[j] == unnumbered[j]
    {
      batches := batches[i := batches[i].(index := i + 1, total := |batches|)];
    }
  }

  /** The first batch that is not streamed and has room. */
  method FindRoom<T>(batches: seq<Batch<T>>, weight: nat, max: nat) returns (j: nat)
    ensures j <= |batches| && (j < |batches| ==> !batches[j].stream && batches[j].size + weight <= max)
    ensures forall i | 0 <= i < j :: batches[i].stream || batches[i].size + weight > max
  {
    j := 0;
    while j < |batches| && (batches[j].stream || batches[j].size + weight > max)
      invariant j <= |batches| && forall i | 0 <= i < j :: batches[i].stream || batches[i].size + weight > max
    {
      j := j + 1;
    }
  }

  /** The first `j` groups have no room for the item, and it is no larger than what is in any. */
  ghost predicate NoRoomBefore<T>(groups: seq<seq<T>>, j: nat, x: T, size: T -> nat, max: nat) {
    && (forall i | 0 <= i < j && i < |groups| :: Sum(groups[i], Weight(size)) + Weight(size)(x) > max)
    && (forall i | 0 <= i < |groups| :: groups[i] != [] && size(x) <= size(groups[i][0]))
  }

  lemma PackedPut<T>(groups: seq<seq<T>>, j: nat, x: T, size: T -> nat, max: nat)
    requires Packed(groups, size, max) && j < |groups| && NoRoomBefore(groups, j, x, size, max)
    ensures Packed(groups[j := groups[j] + [x]], size, max)
  {
    var more := groups[j := groups[j] + [x]];
    forall i, k, y | 0 <= i < k < |more| && y in more[k] ensures Sum(more[i], Weight(size)) + Weight(size)(y) > max {
      PutGrows(groups, j, x, size, i);
      assert y in groups[k] || (k == j && y == x);
    }
    forall i, k, y | 0 <= i <= k < |more| && y in more[k] ensures size(y) <= size(more[i][0]) {
      PutGrows(groups, j, x, size, i);
      assert y in groups[k] || (k == j && y == x);
    }
  }

  lemma PutGrows<T>(groups: seq<seq<T>>, j: nat, x: T, size: T -> nat, i: nat)
    requires j < |groups| && i < |groups| && groups[i] != []
    ensures var more := groups[j := groups[j] + [x]];
      more[i] != [] && more[i][0] == groups[i][0] && Sum(more[i], Weight(size)) >= Sum(groups[i], Weight(size))
  {
    SumAppend(groups[j], [x], Weight(size));
  }

  lemma PackedOpen<T>(groups: seq<seq<T>>, x: T, size: T -> nat, max: nat)
    requires Packed(groups, size, max) && NoRoomBefore(groups, |groups|, x, size, max)
    ensures Packed(groups + [[x]], size, max)
  {
  }

  /** A batch streams one item that reaches the limit on its own, or holds smaller ones within the limit. */
  ghost predicate Good<T>(b: Batch<T>, size: T -> nat, max: nat) {
    && b.items != [] && b.size == Sum(b.items, Weight(size))
    && (forall x | x in b.items :: b.stream <==> size(x) + BUFFER >= max)
    && (if b.stream then |b.items| == 1 else b.size <= max)
  }

  /** Streamed batches come first; the rest are packed. */
  ghost predicate Laid<T>(batches: seq<Batch<T>>, streams: nat, size: T -> nat, max: nat) {
    && streams <= |batches|
    && (forall i | 0 <= i < |batches| :: Good(batches[i], size, max) && (batches[i].stream <==> i < streams))
    && Packed(Contents(batches[streams..]), size, max)
  }

  /** The item is no larger than any before. */
  ghost predicate Smallest<T>(batches: seq<Batch<T>>, item: T, size: T -> nat) {
    forall i | 0 <= i < |batches| :: batches[i].items != [] && size(item) <= size(batches[i].items[0])
  }

  lemma GoodOne<T>(item: T, size: T -> nat, max: nat)
    ensures Good(Batch([item], size(item) + BUFFER, size(item) + BUFFER >= max, 0, 0), size, max)
  {
    assert [item][..0] == [];
    assert Sum([item], Weight(size)) == Sum([item][..0], Weight(size)) + Weight(size)(item);
  }

  lemma GoodPut<T>(b: Batch<T>, item: T, size: T -> nat, max: nat)
    requires Good(b, size, max) && !b.stream && size(item) + BUFFER < max && b.size + size(item) + BUFFER <= max
    ensures Good(Put(b, item, size), size, max)
  {
  }

  lemma ContentsPush<T>(batches: seq<Batch<T>>, b: Batch<T>, s: nat)
    requires s <= |batches|
    ensures Contents(batches + [b]) == Contents(batches) + [b.items]
    ensures Contents((batches + [b])[s..]) == Contents(batches[s..]) + [b.items]
  {
  }

  lemma ContentsPut<T>(batches: seq<Batch<T>>, j: nat, b: Batch<T>, s: nat)
    requires s <= j < |batches|
    ensures Contents(batches[j := b]) == Contents(batches)[j := b.items]
    ensures Contents(batches[j := b][s..]) == Contents(batches[s..])[j - s := b.items]
  {
  }

  lemma AllStreamed<T>(batches: seq<Batch<T>>, streams: nat, item: T, size: T -> nat, max: nat, i: nat)
    requires Laid(batches, streams, size, max) && Smallest(batches, item, size) && size(item) + BUFFER >= max && i < |batches|
    ensures i < streams
  {
    assert batches[i].items[0] in batches[i].items;
  }

  lemma LaidStream<T>(batches: seq<Batch<T>>, streams: nat, item: T, size: T -> nat, max: nat)
    requires Laid(batches, streams, size, max) && Smallest(batches, item, size) && size(item) + BUFFER >= max
    ensures Laid(batches + [Batch([item], size(item) + BUFFER, true, 0, 0)], streams + 1, size, max)
  {
    if batches != [] {
      AllStreamed(batches, streams, item, size, max, |batches| - 1);
    }
    GoodOne(item, size, max);
  }

  lemma LaidOpen<T>(batches: seq<Batch<T>>, streams: nat, item: T, size: T -> nat, max: nat)
    requires Laid(batches, streams, size, max) && Smallest(batches, item, size) && size(item) + BUFFER < max
    requires forall i | 0 <= i < |batches| :: batches[i].stream || batches[i].size + size(item) + BUFFER > max
    ensures Laid(batches + [Batch([item], size(item) + BUFFER, false, 0, 0)], streams, size, max)
  {
    RoomOf(batches, streams, |batches|, item, size, max);
    PackedOpen(Contents(batches[streams..]), item, size, max);
    ContentsPush(batches, Batch([item], size(item) + BUFFER, false, 0, 0), streams);
    GoodOne(item, size, max);
  }

  /** What the loads of the batches say about their contents. */
  lemma RoomOf<T>(batches: seq<Batch<T>>, streams: nat, j: nat, item: T, size: T -> nat, max: nat)
    requires Laid(batches, streams, size, max) && Smallest(batches, item, size) && streams <= j <= |batches|
    requires forall i | streams <= i < j :: batches[i].size + size(item) + BUFFER > max
    ensures NoRoomBefore(Contents(batches[streams..]), j - streams, item, size, max)
  {
  }

  lemma PutPacked<T>(batches: seq<Batch<T>>, streams: nat, j: nat, item: T, size: T -> nat, max: nat)
    requires Laid(batches, streams, size, max) && Smallest(batches, item, size) && streams <= j < |batches|
    requires forall i | streams <= i < j :: batches[i].size + size(item) + BUFFER > max
    ensures Packed(Contents(batches[j := Put(batches[j], item, size)][streams..]), size, max)
  {
    RoomOf(batches, streams, j, item, size, max);
    PackedPut(Contents(batches[streams..]), j - streams, item, size, max);
    GroupsPut(batches, streams, j, item, size);
  }

  lemma GroupsPut<T>(batches: seq<Batch<T>>, streams: nat, j: nat, item: T, size: T -> nat)
    requires streams <= j < |batches|
    ensures var groups := Contents(batches[streams..]);
      Contents(batches[j := Put(batches[j], item, size)][streams..]) == groups[j - streams := groups[j - streams] + [item]]
  {
    ContentsPut(batches, j, Put(batches[j], item, size), streams);
  }

  lemma LaidPut<T>(batches: seq<Batch<T>>, streams: nat, j: nat, item: T, size: T -> nat, max: nat)
    requires Laid(batches, streams, size, max) && Smallest(batches, item, size) && size(item) + BUFFER < max
    requires j < |batches| && !batches[j].stream && batches[j].size + size(item) + BUFFER <= max
    requires forall i | 0 <= i < j :: batches[i].stream || batches[i].size + size(item) + BUFFER > max
    ensures Laid(batches[j := Put(batches[j], item, size)], streams, size, max)
  {
    PutPacked(batches, streams, j, item, size, max);
    GoodPut(batches[j], item, size, max);
  }

  function Put<T>(b: Batch<T>, item: T, size: T -> nat): Batch<T> {
    b.(items := b.items + [item], size := b.size + size(item) + BUFFER)
  }

  /** The item goes to batch `j`, or to a new one at the end, because those before have no room. */
  ghost predicate FitsAt<T>(batches: seq<Batch<T>>, more: seq<Batch<T>>, item: T, size: T -> nat, max: nat, j: nat)
    requires j <= |batches|
  {
    var weight := size(item) + BUFFER;
    && (forall i | 0 <= i < j :: batches[i].stream || batches[i].size + weight > max)
    && if j == |batches| then more == batches + [Batch([item], weight, false, 0, 0)]
       else !batches[j].stream && batches[j].size + weight <= max && more == batches[j := Put(batches[j], item, size)]
  }

  /** The item is alone in a stream, or in the first batch with room for it, or in a new one if none has. */
  ghost predicate FirstFit<T>(batches: seq<Batch<T>>, more: seq<Batch<T>>, item: T, size: T -> nat, max: nat) {
    if size(item) + BUFFER >= max then more == batches + [Batch([item], size(item) + BUFFER, true, 0, 0)]
    else exists j | 0 <= j <= |batches| :: FitsAt(batches, more, item, size, max, j)
  }

  /** One item was added. */
  ghost predicate Adds<T>(batches: seq<Batch<T>>, more: seq<Batch<T>>, item: T, size: T -> nat) {
    multiset(Flat(Contents(more))) == multiset(Flat(Contents(batches))) + multiset{item} && Smallest(more, item, size)
  }

  lemma PushAdds<T>(batches: seq<Batch<T>>, b: Batch<T>, item: T, size: T -> nat)
    requires Smallest(batches, item, size) && b.items == [item]
    ensures Adds(batches, batches + [b], item, size)
  {
    ContentsPush(batches, b, 0);
  }

  lemma PutAdds<T>(batches: seq<Batch<T>>, j: nat, item: T, size: T -> nat)
    requires Smallest(batches, item, size) && j < |batches|
    ensures Adds(batches, batches[j := Put(batches[j], item, size)], item, size)
  {
    PutKeepsCount(batches, j, item, size);
    PutKeepsSmallest(batches, j, item, size);
  }

  lemma PutKeepsCount<T>(batches: seq<Batch<T>>, j: nat, item: T, size: T -> nat)
    requires j < |batches|
    ensures multiset(Flat(Contents(batches[j := Put(batches[j], item, size)]))) == multiset(Flat(Contents(batches))) + multiset{item}
  {
    ContentsPut(batches, j, Put(batches[j], item, size), 0);
    FlatUpdate(Contents(batches), j, item);
  }

  lemma PutKeepsSmallest<T>(batches: seq<Batch<T>>, j: nat, item: T, size: T -> nat)
    requires Smallest(batches, item, size) && j < |batches|
    ensures Smallest(batches[j := Put(batches[j], item, size)], item, size)
  {
  }

  /** Where the next item, no larger than any before, goes. */
  method Place<T>(batches: seq<Batch<T>>, item: T, size: T -> nat, max: nat, ghost streams: nat)
    returns (more: seq<Batch<T>>, ghost streams': nat)
    requires Laid(batches, streams, size, max) && Smallest(batches, item, size)
    ensures Laid(more, streams', size, max) && Adds(batches, more, item, size) && FirstFit(batches, more, item, size, max)
  {
    var weight := size(item) + BUFFER;
    if weight >= max {
      LaidStream(batches, streams, item, size, max);
      PushAdds(batches, Batch([item], weight, true, 0, 0), item, size);
      more, streams' := batches + [Batch([item], weight, true, 0, 0)], streams + 1;
    } else {
      streams' := streams;
      var j := FindRoom(batches, weight, max);
      if j < |batches| {
        LaidPut(batches, streams, j, item, size, max);
        PutAdds(batches, j, item, size);
        more := batches[j := Put(batches[j], item, size)];
      } else {
        LaidOpen(batches, streams, item, size, max);
        PushAdds(batches, Batch([item], weight, false, 0, 0), item, size);
        more := batches + [Batch([item], weight, false, 0, 0)];
      }
      assert FitsAt(batches, more, item, size, max, j);
    }
  }

  lemma LaidNumbered<T>(before: seq<Batch<T>>, after: seq<Batch<T>>, streams: nat, size: T -> nat, max: nat)
    requires Laid(before, streams, size, max) && |after| == |before|
    requires forall i | 0 <= i < |after| :: after[i] == before[i].(index := i + 1, total := |after|)
    ensures Laid(after, streams, size, max)
  {
    assert Contents(after[streams..]) == Contents(before[streams..]);
    forall i | 0 <= i < |after| ensures Good(after[i], size, max) && (after[i].stream <==> i < streams) {
      assert Good(before[i], size, max);
    }
  }

  /** With 300 bytes for each item, an item that reaches the limit is alone, and others keep within it together. */
  ghost predicate KeepsLimit<T>(b: Batch<T>, size: T -> nat, max: nat) {
    if b.stream then |b.items| == 1 && size(b.items[0]) + 300 >= max
    else (forall x | x in b.items :: size(x) + 300 < max) && Sum(b.items, size) + 300 * |b.items| <= max
  }

  lemma GoodKeepsLimit<T>(b: Batch<T>, size: T -> nat, max: nat)
    requires Good(b, size, max)
    ensures KeepsLimit(b, size, max)
  {
    if b.stream {
      assert b.items[0] in b.items;
    }
    WeightIsBuffered(b.items, size);
  }

  lemma {:induction false} WeightIsBuffered<T>(items: seq<T>, size: T -> nat)
    ensures Sum(items, Weight(size)) == Sum(items, size) + 300 * |items|
  {
    if items != [] {
      WeightIsBuffered(items[..|items| - 1], size);
    }
  }

  /**
   Packing by size: no item is lost or repeated, exactly the items that reach the limit are
   streamed alone, other batches keep within it, and there are at most half as many of these again
   as in any other grouping within the limit.
   */
  method PartitionIntoBatches<T>(items: seq<T>, max: nat, size: T -> nat) returns (batches: seq<Batch<T>>, ghost streams: nat)
    ensures multiset(Flat(Contents(batches))) == multiset(items)
    ensures Laid(batches, streams, size, max) && Numbered(batches)
    ensures forall b | b in batches :: KeepsLimit(b, size, max)
    ensures forall others | Fits(others, size, max) && multiset(Flat(others)) == multiset(Flat(Contents(batches[streams..]))) ::
      2 * (|batches| - streams) <= 3 * |others|
  {
    var sorted := SortDecreasing(items, size);
    var unnumbered;
    unnumbered, streams := PlaceAll(sorted, max, size);
    batches := Number(unnumbered);
    LaidNumbered(unnumbered, batches, streams, size, max);
    forall b | b in batches ensures KeepsLimit(b, size, max) {
      GoodKeepsLimit(b, size, max);
    }
    forall others | Fits(others, size, max) && multiset(Flat(others)) == multiset(Flat(Contents(batches[streams..])))
      ensures 2 * (|batches| - streams) <= 3 * |others|
    {
      PackingBound(Contents(batches[streams..]), others, size, max);
    }
  }

  method PlaceAll<T>(sorted: seq<T>, max: nat, size: T -> nat) returns (batches: seq<Batch<T>>, ghost streams: nat)
    requires Decreasing(sorted, size)
    ensures Laid(batches, streams, size, max) && multiset(Flat(Contents(batches))) == multiset(sorted)
  {
    batches, streams := [], 0;
    for i := 0 to |sorted|
      invariant Laid(batches, streams, size, max)
      invariant multiset(Flat(Contents(batches))) == multiset(sorted[..i])
      invariant if i == 0 then batches == [] else Smallest(batches, sorted[i - 1], size)
    {
      PrefixMultiset(sorted, i);
      assert Smallest(batches, sorted[i], size);
      batches, streams := Place(batches, sorted[i], size, max, streams);
    }
    assert sorted[..|sorted|] == sorted;
  }

  /**
   Chunking: the items in order, in batches of at most `chunk` items each, at most one batch for
   every hundred items begun and never more than there are threads.
   */
  method ChunkIntoBatches<T>(items: seq<T>, size: T -> nat) returns (batches: seq<Batch<T>>)
    ensures Flat(Contents(batches)) == items && Numbered(batches)
    ensures |batches| <= DivCeil(|items|, 100) && |batches| <= 512
    ensures forall b | b in batches :: b.items != [] && !b.stream && b.size == Sum(b.items, size)
    ensures |items| <= 51200 ==> forall b | b in batches :: |b.items| <= 100
  {
    if |items| == 0 {
      return [];
    }
    var count, chunk := ChunkSize(|items|);
    var unnumbered := Chunked(items, count, chunk, size);
    batches := Number(unnumbered);
    forall b | b in batches ensures b.items != [] && !b.stream && b.size == Sum(b.items, size) && |b.items| <= chunk {
      var i :| 0 <= i < |batches| && b == batches[i];
      assert unnumbered[i] in unnumbered;
    }
  }

  /** How many batches there may be, and how many items each takes. */
  method ChunkSize(n: nat) returns (count: nat, chunk: nat)
    requires n > 0
    ensures 0 < count <= DivCeil(n, CHUNK_TARGET_SIZE) && count <= BLOCKING_THREAD_COUNT
    ensures 0 < chunk && n <= count * chunk
    ensures n <= CHUNK_TARGET_SIZE * BLOCKING_THREAD_COUNT ==> chunk <= CHUNK_TARGET_SIZE
  {
    var wanted := DivCeil(n, CHUNK_TARGET_SIZE);
    count := if wanted < BLOCKING_THREAD_COUNT then wanted else BLOCKING_THREAD_COUNT;
    DivCeilBounds(n, CHUNK_TARGET_SIZE);
    chunk := DivCeil(n, count);
    DivCeilBounds(n, count);
    if n <= CHUNK_TARGET_SIZE * BLOCKING_THREAD_COUNT {
      DivCeilLeast(n, CHUNK_TARGET_SIZE, BLOCKING_THREAD_COUNT);
      DivCeilLeast(n, count, CHUNK_TARGET_SIZE);
    }
  }

  method Chunked<T>(items: seq<T>, ghost count: nat, chunk: nat, size: T -> nat) returns (batches: seq<Batch<T>>)
    requires 0 < chunk && |items| <= count * chunk
    ensures Flat(Contents(batches)) == items && |batches| <= count
    ensures forall b | b in batches :: b.items != [] && !b.stream && b.size == Sum(b.items, size) && |b.items| <= chunk
  {
    batches := [];
    var rest := items;
    while rest != []
      invariant Flat(Contents(batches)) + rest == items
      invariant |batches| <= count && (rest != [] ==> |batches| * chunk + |rest| == |items|)
      invariant forall b | b in batches :: b.items != [] && !b.stream && b.size == Sum(b.items, size) && |b.items| <= chunk
    {
      var take := if chunk < |rest| then chunk else |rest|;
      var b := Batch(rest[..take], Sum(rest[..take], size), false, 0, 0);
      ChunkOff(batches, rest, b, take, items);
      ChunkCounts(|batches|, count, chunk, |rest|, |items|);
      batches := batches + [b];
      rest := rest[take..];
    }
  }

  lemma ChunkOff<T>(batches: seq<Batch<T>>, rest: seq<T>, b: Batch<T>, take: nat, items: seq<T>)
    requires take <= |rest| && b.items == rest[..take] && Flat(Contents(batches)) + rest == items
    ensures Flat(Contents(batches + [b])) + rest[take..] == items
  {
    ContentsPush(batches, b, 0);
    var groups := Contents(batches);
    assert (groups + [b.items])[..|groups|] == groups;
    assert rest == rest[..take] + rest[take..];
  }

  lemma ChunkCounts(k: nat, count: nat, chunk: nat, rest: nat, n: nat)
    requires 0 < chunk && 0 < rest && k * chunk + rest == n <= count * chunk
    ensures k < count && (chunk < rest ==> (k + 1) * chunk + (rest - chunk) == n)
  {
    MulStep(k, chunk);
    FewerThan(k, count, chunk);
  }

  /** With a limit on the size of a request, items are packed by size; without one they are only chunked. */
  method CreateBatches<T>(items: seq<T>, max: nat, size: T -> nat) returns (batches: seq<Batch<T>>, ghost streams: nat)
    ensures multiset(Flat(Contents(batches))) == multiset(items) && Numbered(batches)
    ensures forall b | b in batches :: b.items != []
    ensures max > 0 ==> Laid(batches, streams, size, max) && forall b | b in batches :: KeepsLimit(b, size, max)
    ensures max == 0 ==>
      && streams == 0 && Flat(Contents(batches)) == items && (forall b | b in batches :: !b.stream && b.size == Sum(b.items, size))
      && |batches| <= DivCeil(|items|, 100) && |batches| <= 512
  {
    if max > 0 {
      batches, streams := PartitionIntoBatches(items, max, size);
    } else {
      batches := ChunkIntoBatches(items, size);
      streams := 0;
    }
  }
}

/**
 Eviction of manifests from the local cache, newest first and within a budget of bytes.
 */
module Eviction {
  import opened Actions
  import opened Digests
  import opened Sequences

  /** A manifest that could be read, with the time it was last used. */
  datatype Entry = Entry(id: nat, mtime: nat, fileSize: nat, digests: seq<Digest>)

  datatype Limits = Limits(now: nat, lifetime: nat, maxSize: Option<nat>)

  /** `now.duration_since(mtime).unwrap_or_default()`. */
  function Age(now: nat, mtime: nat): nat {
    if mtime < now then now - mtime else 0
  }

  function Mtime(e: Entry): nat {
    e.mtime
  }

  function FileSize(e: Entry): nat {
    e.fileSize
  }

  /** The bytes of the digests that are not kept yet; a digest that is listed twice counts twice. */
  function Marginal(ds: seq<Digest>, keep: set<nat>): nat {
    if ds == [] then 0
    else
      var d := ds[|ds| - 1];
      Marginal(ds[..|ds| - 1], keep) + if d.hash in keep then 0 else Bytes(d)
  }

  // ---- What is kept ----

  /** The digests whose hash is new, each hash once. */
  ghost function FirstOf(ds: seq<Digest>, keep: set<nat>): seq<Digest> {
    if ds == [] then []
    else
      var d, before := ds[|ds| - 1], FirstOf(ds[..|ds| - 1], keep);
      if d.hash in keep || d.hash in Hashes(before) then before else before + [d]
  }

  ghost predicate EachHashOnce(ds: seq<Digest>) {
    forall i, j | 0 <= i < j < |ds| :: ds[i].hash != ds[j].hash
  }

  lemma HashesAppend(a: seq<Digest>, b: seq<Digest>)
    ensures Hashes(a + b) == Hashes(a) + Hashes(b)
  {
  }

  lemma OnceAppend(a: seq<Digest>, b: seq<Digest>)
    requires EachHashOnce(a) && EachHashOnce(b) && Hashes(a) !! Hashes(b)
    ensures EachHashOnce(a + b)
  {
    forall i, j | 0 <= i < |a| && 0 <= j < |b| ensures a[i].hash != b[j].hash {
      assert a[i].hash in Hashes(a) && b[j].hash in Hashes(b);
    }
  }

  lemma {:induction false} FirstOfHashes(ds: seq<Digest>, keep: set<nat>)
    ensures Hashes(FirstOf(ds, keep)) == Hashes(ds) - keep
  {
    if ds != [] {
      var most, d := ds[..|ds| - 1], ds[|ds| - 1];
      FirstOfHashes(most, keep);
      HashesAppend(most, [d]);
      HashesAppend(FirstOf(most, keep), [d]);
      assert ds == most + [d] && Hashes([d]) == {d.hash};
    }
  }

  lemma {:induction false} FirstOfOnce(ds: seq<Digest>, keep: set<nat>)
    ensures EachHashOnce(FirstOf(ds, keep))
  {
    if ds != [] {
      var before, d := FirstOf(ds[..|ds| - 1], keep), ds[|ds| - 1];
      FirstOfOnce(ds[..|ds| - 1], keep);
      if d.hash !in Hashes(before) {
        OnceAppend(before, [d]);
      }
    }
  }

  /** Counting each hash once gives at most the marginal size. */
  lemma {:induction false} FirstOfSum(ds: seq<Digest>, keep: set<nat>)
    ensures Sum(FirstOf(ds, keep), Bytes) <= Marginal(ds, keep)
  {
    if ds != [] {
      var before, d := FirstOf(ds[..|ds| - 1], keep), ds[|ds| - 1];
      FirstOfSum(ds[..|ds| - 1], keep);
      assert (before + [d])[..|before|] == before;
    }
  }

  /** The blobs kept after an entry, each hash once, in the order in which they were first kept. */
  ghost function Next(e: Entry, evict: bool, kept: seq<Digest>): seq<Digest> {
    if evict then kept else kept + FirstOf(e.digests, Hashes(kept))
  }

  lemma NextHashes(e: Entry, evict: bool, kept: seq<Digest>)
    ensures Hashes(Next(e, evict, kept)) == Hashes(kept) + if evict then {} else Hashes(e.digests)
  {
    FirstOfHashes(e.digests, Hashes(kept));
    HashesAppend(kept, FirstOf(e.digests, Hashes(kept)));
  }

  /** An entry is evicted when it is past its lifetime or its marginal size does not fit. */
  ghost predicate Decided(e: Entry, evict: bool, kept: seq<Digest>, limits: Limits) {
    evict <==>
      || Age(limits.now, e.mtime) > limits.lifetime
      || (limits.maxSize.Some? && Sum(kept, Bytes) + Marginal(e.digests, Hashes(kept)) > limits.maxSize.value)
  }

  /** `history[n]` are the blobs that the entries before `n` keep. */
  ghost predicate Evicts(entries: seq<Entry>, evicted: seq<bool>, history: seq<seq<Digest>>, limits: Limits) {
    && |evicted| <= |entries| && |history| == |evicted| + 1 && history[0] == []
    && forall i | 0 <= i < |evicted| ::
         && Decided(entries[i], evicted[i], history[i], limits)
         && history[i + 1] == Next(entries[i], evicted[i], history[i])
  }

  /** A survivor's blobs are kept. */
  lemma {:induction false} SurvivorIsKept(
      entries: seq<Entry>, evicted: seq<bool>, history: seq<seq<Digest>>, limits: Limits, n: nat, i: nat)
    requires Evicts(entries, evicted, history, limits) && i < n <= |evicted| && !evicted[i]
    ensures Hashes(entries[i].digests) <= Hashes(history[n])
  {
    NextHashes(entries[n - 1], evicted[n - 1], history[n - 1]);
    assert history[n - 1 + 1] == Next(entries[n - 1], evicted[n - 1], history[n - 1]);
    if i < n - 1 {
      SurvivorIsKept(entries, evicted, history, limits, n - 1, i);
    }
  }

  /** Nothing is kept that no survivor refers to. */
  lemma {:induction false} KeptHasSurvivor(
      entries: seq<Entry>, evicted: seq<bool>, history: seq<seq<Digest>>, limits: Limits, n: nat, h: nat)
    requires Evicts(entries, evicted, history, limits) && n <= |evicted| && h in Hashes(history[n])
    ensures exists i | 0 <= i < n :: !evicted[i] && h in Hashes(entries[i].digests)
  {
    if n > 0 {
      NextHashes(entries[n - 1], evicted[n - 1], history[n - 1]);
      assert history[n - 1 + 1] == Next(entries[n - 1], evicted[n - 1], history[n - 1]);
      if h in Hashes(history[n - 1]) {
        KeptHasSurvivor(entries, evicted, history, limits, n - 1, h);
      }
    }
  }

  lemma {:induction false} FirstOfPart(ds: seq<Digest>, keep: set<nat>)
    ensures forall d | d in FirstOf(ds, keep) :: d in ds
  {
    if ds != [] {
      FirstOfPart(ds[..|ds| - 1], keep);
    }
  }

  /** Every kept digest is listed by a survivor. */
  lemma {:induction false} KeptIsListed(
      entries: seq<Entry>, evicted: seq<bool>, history: seq<seq<Digest>>, limits: Limits, n: nat, d: Digest)
    requires Evicts(entries, evicted, history, limits) && n <= |evicted| && d in history[n]
    ensures exists i | 0 <= i < n :: !evicted[i] && d in entries[i].digests
  {
    if n > 0 {
      assert history[n - 1 + 1] == Next(entries[n - 1], evicted[n - 1], history[n - 1]);
      if d in history[n - 1] {
        KeptIsListed(entries, evicted, history, limits, n - 1, d);
      } else {
        FirstOfPart(entries[n - 1].digests, Hashes(history[n - 1]));
      }
    }
  }

  /** What a digest adds to kept hashes. */
  ghost function Extra(keep: set<nat>): Digest -> nat {
    (d: Digest) => if d.hash in keep || d.size < 0 then 0 else d.size
  }

  lemma {:induction false} MarginalIsExtra(ds: seq<Digest>, keep: set<nat>)
    ensures Marginal(ds, keep) == Sum(ds, Extra(keep))
  {
    if ds != [] {
      MarginalIsExtra(ds[..|ds| - 1], keep);
    }
  }

  /** Without repeated hashes nothing is counted twice. */
  lemma {:induction false} MarginalIsFirst(ds: seq<Digest>, keep: set<nat>)
    requires EachHashOnce(ds)
    ensures Marginal(ds, keep) == Sum(FirstOf(ds, keep), Bytes)
  {
    if ds != [] {
      var most, d := ds[..|ds| - 1], ds[|ds| - 1];
      MarginalIsFirst(most, keep);
      FirstOfHashes(most, keep);
      assert d.hash !in Hashes(most);
      assert (FirstOf(most, keep) + [d])[..|FirstOf(most, keep)|] == FirstOf(most, keep);
    }
  }

  /** Digests with the same hash have the same size. */
  ghost predicate SizesAgree(a: seq<Digest>, b: seq<Digest>) {
    forall d, e | d in a && e in b && d.hash == e.hash :: Bytes(d) == Bytes(e)
  }

  /** Fewer blobs, each counted once, are no larger together. */
  lemma {:induction false} FewerBlobs(a: seq<Digest>, b: seq<Digest>)
    requires EachHashOnce(a) && EachHashOnce(b) && Hashes(a) <= Hashes(b) && SizesAgree(a, b)
    ensures Sum(a, Bytes) <= Sum(b, Bytes)
  {
    if a != [] {
      var most, d := a[..|a| - 1], a[|a| - 1];
      assert d in a && d.hash in Hashes(b);
      var j :| 0 <= j < |b| && b[j].hash == d.hash;
      WithoutSum(b, j, Bytes);
      WithoutOnce(b, j);
      forall h | h in Hashes(most) ensures h in Hashes(Without(b, j)) {
        var i :| 0 <= i < |most| && most[i].hash == h;
        assert a[i].hash == h && h in Hashes(a);
      }
      FewerBlobs(most, Without(b, j));
    }
  }

  lemma WithoutOnce(b: seq<Digest>, j: nat)
    requires EachHashOnce(b) && j < |b|
    ensures EachHashOnce(Without(b, j)) && (forall d | d in Without(b, j) :: d in b)
    ensures forall h | h in Hashes(b) && h != b[j].hash :: h in Hashes(Without(b, j))
  {
    forall h | h in Hashes(b) && h != b[j].hash ensures h in Hashes(Without(b, j)) {
      var i :| 0 <= i < |b| && b[i].hash == h;
      assert b[i] == Without(b, j)[if i < j then i else i - 1];
    }
  }

  /** One entry keeps within the budget, although its marginal size may count a hash twice. */
  lemma NextWithinBudget(e: Entry, evict: bool, kept: seq<Digest>, limits: Limits)
    requires Decided(e, evict, kept, limits) && EachHashOnce(kept)
    requires limits.maxSize.Some? ==> Sum(kept, Bytes) <= limits.maxSize.value
    ensures EachHashOnce(Next(e, evict, kept))
    ensures limits.maxSize.Some? ==> Sum(Next(e, evict, kept), Bytes) <= limits.maxSize.value
  {
    var newer := FirstOf(e.digests, Hashes(kept));
    FirstOfHashes(e.digests, Hashes(kept));
    FirstOfOnce(e.digests, Hashes(kept));
    FirstOfSum(e.digests, Hashes(kept));
    OnceAppend(kept, newer);
    SumAppend(kept, newer, Bytes);
  }

  /** At every point the kept blobs, each hash counted once, are within the budget. */
  lemma {:induction false} KeptWithinBudget(
      entries: seq<Entry>, evicted: seq<bool>, history: seq<seq<Digest>>, limits: Limits, n: nat)
    requires Evicts(entries, evicted, history, limits) && n <= |evicted|
    ensures EachHashOnce(history[n])
    ensures limits.maxSize.Some? ==> Sum(history[n], Bytes) <= limits.maxSize.value
  {
    if n > 0 {
      KeptWithinBudget(entries, evicted, history, limits, n - 1);
      assert history[n - 1 + 1] == Next(entries[n - 1], evicted[n - 1], history[n - 1]);
      NextWithinBudget(entries[n - 1], evicted[n - 1], history[n - 1], limits);
    }
  }

  lemma {:induction false} NothingToAdd(ds: seq<Digest>, keep: set<nat>)
    requires Hashes(ds) <= keep
    ensures Marginal(ds, keep) == 0
  {
    if ds != [] {
      assert ds[|ds| - 1].hash in Hashes(ds);
      NothingToAdd(ds[..|ds| - 1], keep);
    }
  }

  /** A manifest within its lifetime whose blobs are all kept already is never evicted. */
  lemma FreeIsNotEvicted(entries: seq<Entry>, evicted: seq<bool>, history: seq<seq<Digest>>, limits: Limits, i: nat)
    requires Evicts(entries, evicted, history, limits) && i < |evicted|
    requires Age(limits.now, entries[i].mtime) <= limits.lifetime && Hashes(entries[i].digests) <= Hashes(history[i])
    ensures !evicted[i]
  {
    KeptWithinBudget(entries, evicted, history, limits, i);
    NothingToAdd(entries[i].digests, Hashes(history[i]));
    assert Decided(entries[i], evicted[i], history[i], limits);
  }

  // ---- The loop ----

  ghost function Evictees(entries: seq<Entry>, evicted: seq<bool>): seq<Entry>
    requires |evicted| <= |entries|
  {
    if evicted == [] then []
    else
      var n := |evicted| - 1;
      Evictees(entries, evicted[..n]) + if evicted[n] then [entries[n]] else []
  }

  lemma MoreEvictees(entries: seq<Entry>, evicted: seq<bool>, evict: bool)
    requires |evicted| < |entries|
    ensures var gone, e := Evictees(entries, evicted), entries[|evicted|];
      && Evictees(entries, evicted + [evict]) == (if evict then gone + [e] else gone)
      && Sum(gone + [e], FileSize) == Sum(gone, FileSize) + e.fileSize
  {
  }

  lemma FirstOfSnoc(ds: seq<Digest>, i: nat, keep: set<nat>)
    requires i < |ds|
    ensures var before := FirstOf(ds[..i], keep);
      FirstOf(ds[..i + 1], keep) == if ds[i].hash in keep || ds[i].hash in Hashes(before) then before else before + [ds[i]]
  {
    assert ds[..i + 1][..i] == ds[..i];
  }

  lemma KeepOne(kept: seq<Digest>, d: Digest)
    ensures Hashes(kept + [d]) == Hashes(kept) + {d.hash} && Sum(kept + [d], Bytes) == Sum(kept, Bytes) + Bytes(d)
  {
  }

  /** Keeps the blobs of a manifest, each hash once. */
  method Absorb(ds: seq<Digest>, keep0: set<nat>, keepSize0: nat, ghost kept0: seq<Digest>)
    returns (keep: set<nat>, keepSize: nat, ghost kept: seq<Digest>)
    requires keep0 == Hashes(kept0) && keepSize0 == Sum(kept0, Bytes)
    ensures kept == kept0 + FirstOf(ds, keep0) && keep == Hashes(kept) && keepSize == Sum(kept, Bytes)
    ensures keep == keep0 + Hashes(ds) && keepSize0 <= keepSize <= keepSize0 + Marginal(ds, keep0)
  {
    keep, keepSize, kept := keep0, keepSize0, kept0;
    for i := 0 to |ds|
      invariant kept == kept0 + FirstOf(ds[..i], keep0) && keep == Hashes(kept) && keepSize == Sum(kept, Bytes)
    {
      FirstOfSnoc(ds, i, keep0);
      HashesAppend(kept0, FirstOf(ds[..i], keep0));
      if ds[i].hash !in keep {
        KeepOne(kept, ds[i]);
        kept := kept + [ds[i]];
        keep := keep + {ds[i].hash};
        keepSize := keepSize + Bytes(ds[i]);
      }
    }
    assert ds[..|ds|] == ds;
    FirstOfHashes(ds, keep0);
    FirstOfSum(ds, keep0);
    HashesAppend(kept0, FirstOf(ds, keep0));
    SumAppend(kept0, FirstOf(ds, keep0), Bytes);
  }

  /**
   Newest first. `keep` and the size that is compared with the budget are those of the blobs kept
   so far, and each entry is evicted or kept by what was kept before it.
   */
  method EvictManifests(found: seq<Entry>, limits: Limits)
    returns (keep: set<nat>, removed: nat, saved: nat, entries: seq<Entry>, evicted: seq<bool>, ghost history: seq<seq<Digest>>)
    ensures multiset(entries) == multiset(found) && Decreasing(entries, Mtime) && |evicted| == |entries|
    ensures Evicts(entries, evicted, history, limits) && keep == Hashes(history[|entries|])
    ensures removed == |Evictees(entries, evicted)| && saved == Sum(Evictees(entries, evicted), FileSize)
  {
    entries := SortDecreasing(found, Mtime);
    keep, removed, saved, evicted, history := {}, 0, 0, [], [[]];
    var keepSize: nat := 0;
    for i := 0 to |entries|
      invariant |evicted| == i && Evicts(entries, evicted, history, limits)
      invariant keep == Hashes(history[i]) && keepSize == Sum(history[i], Bytes)
      invariant removed == |Evictees(entries, evicted)| && saved == Sum(Evictees(entries, evicted), FileSize)
    {
      var e := entries[i];
      var overLifetime := Age(limits.now, e.mtime) > limits.lifetime;
      var overBudget := limits.maxSize.Some? && keepSize + Marginal(e.digests, keep) > limits.maxSize.value;
      var evict := overLifetime || overBudget;
      MoreEvictees(entries, evicted, evict);
      ghost var kept := history[i];
      if evict {
        removed := removed + 1;
        saved := saved + e.fileSize;
      } else {
        keep, keepSize, kept := Absorb(e.digests, keep, keepSize, kept);
      }
      MoreEvicts(entries, evicted, history, limits, evict);
      evicted, history := evicted + [evict], history + [kept];
    }
  }

  lemma MoreEvicts(entries: seq<Entry>, evicted: seq<bool>, history: seq<seq<Digest>>, limits: Limits, evict: bool)
    requires Evicts(entries, evicted, history, limits) && |evicted| < |entries|
    requires Decided(entries[|evicted|], evict, history[|evicted|], limits)
    ensures Evicts(entries, evicted + [evict], history + [Next(entries[|evicted|], evict, history[|evicted|])], limits)
  {
  }
}

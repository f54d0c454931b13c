/**
 Garbage collection of the local cache as a whole: evict manifests, then sweep blobs.
 */
module Collection {
  import opened Actions
  import opened Digests
  import opened Eviction
  import opened Sequences

  const BLOB_GRACE: nat := 3600

  /** A file in the manifest store; one that cannot be read or parsed is passed over. */
  datatype ManifestFile = Readable(mtime: nat, fileSize: nat, digests: seq<Digest>) | Unreadable

  /** A blob is swept when it is not kept and older than the grace window. */
  predicate Spared(h: nat, mtime: nat, keep: set<nat>, now: nat) {
    h in keep || Age(now, mtime) <= BLOB_GRACE
  }

  ghost predicate RootedIn(manifests: map<nat, ManifestFile>, h: nat) {
    exists id | id in manifests :: manifests[id].Readable? && h in Hashes(manifests[id].digests)
  }

  /** The entries are the readable manifests, each once. */
  ghost predicate Lists(manifests: map<nat, ManifestFile>, entries: seq<Entry>) {
    && Distinct(entries)
    && (forall e | e in entries :: e.id in manifests && manifests[e.id] == Readable(e.mtime, e.fileSize, e.digests))
    && (forall id | id in manifests && manifests[id].Readable? :: exists e | e in entries :: e.id == id)
  }

  lemma Loaded(manifests: map<nat, ManifestFile>, found: seq<Entry>, entries: seq<Entry>)
    requires Lists(manifests, found) && multiset(entries) == multiset(found)
    ensures Lists(manifests, entries)
  {
    DistinctPart(found, entries);
    DistinctPart(entries, found);
  }

  /** The files that are left after the evicted ones were removed. */
  ghost predicate Left(before: map<nat, ManifestFile>, after: map<nat, ManifestFile>, entries: seq<Entry>, evicted: seq<bool>)
    requires |entries| == |evicted|
  {
    && after.Keys <= before.Keys && (forall id | id in after :: after[id] == before[id])
    && forall id | id in before :: id in after <==> forall i | 0 <= i < |entries| && entries[i].id == id :: !evicted[i]
  }

  /** The kept hashes are those that the files left behind refer to. */
  lemma KeptIsRooted(
      before: map<nat, ManifestFile>, after: map<nat, ManifestFile>,
      entries: seq<Entry>, evicted: seq<bool>, history: seq<seq<Digest>>, limits: Limits, h: nat)
    requires |entries| == |evicted| && Lists(before, entries) && Left(before, after, entries, evicted)
    requires Evicts(entries, evicted, history, limits)
    ensures h in Hashes(history[|entries|]) <==> RootedIn(after, h)
  {
    if h in Hashes(history[|entries|]) {
      KeptHasSurvivor(entries, evicted, history, limits, |entries|, h);
      var i :| 0 <= i < |entries| && !evicted[i] && h in Hashes(entries[i].digests);
      SurvivorIsLeft(before, after, entries, evicted, i);
    }
    if RootedIn(after, h) {
      var id :| id in after && after[id].Readable? && h in Hashes(after[id].digests);
      var e :| e in entries && e.id == id;
      var i :| 0 <= i < |entries| && entries[i] == e;
      SurvivorIsKept(entries, evicted, history, limits, |entries|, i);
    }
  }

  lemma SurvivorIsLeft(
      before: map<nat, ManifestFile>, after: map<nat, ManifestFile>, entries: seq<Entry>, evicted: seq<bool>, i: nat)
    requires |entries| == |evicted| && Lists(before, entries) && Left(before, after, entries, evicted)
    requires i < |entries| && !evicted[i]
    ensures entries[i].id in after && after[entries[i].id] == Readable(entries[i].mtime, entries[i].fileSize, entries[i].digests)
  {
  }

  // ---- Which manifests go ----

  ghost predicate Fresh(m: ManifestFile, limits: Limits) {
    m.Readable? && limits.now <= m.mtime + limits.lifetime
  }

  /** Distinct blobs of readable manifests that are at least as new. */
  ghost predicate BlobsSince(manifests: map<nat, ManifestFile>, since: nat, blobs: seq<Digest>) {
    && EachHashOnce(blobs)
    && forall d | d in blobs :: exists id | id in manifests :: manifests[id].Readable? && manifests[id].mtime >= since && d in manifests[id].digests
  }

  ghost predicate HasBlobsOf(manifests: map<nat, ManifestFile>, blobs: seq<Digest>) {
    forall id | id in manifests && manifests[id].Readable? :: Hashes(manifests[id].digests) <= Hashes(blobs)
  }

  /** The distinct blobs of readable manifests are within the size. */
  ghost predicate WithinSize(manifests: map<nat, ManifestFile>, max: nat) {
    exists blobs :: BlobsSince(manifests, 0, blobs) && HasBlobsOf(manifests, blobs) && Sum(blobs, Bytes) <= max
  }

  /** The manifest does not fit beside distinct blobs of readable manifests that are at least as new. */
  ghost predicate Overflows(manifests: map<nat, ManifestFile>, m: ManifestFile, max: nat)
    requires m.Readable?
  {
    exists blobs :: BlobsSince(manifests, m.mtime, blobs) && Sum(blobs, Bytes) + Sum(m.digests, Extra(Hashes(blobs))) > max
  }

  lemma HistoryListed(
      before: map<nat, ManifestFile>, after: map<nat, ManifestFile>,
      entries: seq<Entry>, evicted: seq<bool>, history: seq<seq<Digest>>, limits: Limits, n: nat, since: nat)
    requires |entries| == |evicted| && Lists(before, entries) && Left(before, after, entries, evicted)
    requires Evicts(entries, evicted, history, limits) && n <= |entries| && forall i | 0 <= i < n :: entries[i].mtime >= since
    ensures BlobsSince(after, since, history[n])
  {
    KeptWithinBudget(entries, evicted, history, limits, n);
    forall d | d in history[n]
      ensures exists id | id in after :: after[id].Readable? && after[id].mtime >= since && d in after[id].digests
    {
      KeptIsListed(entries, evicted, history, limits, n, d);
      var i :| 0 <= i < n && !evicted[i] && d in entries[i].digests;
      SurvivorIsLeft(before, after, entries, evicted, i);
    }
  }

  /** What is left is within the budget. */
  lemma LeftWithinSize(
      before: map<nat, ManifestFile>, after: map<nat, ManifestFile>,
      entries: seq<Entry>, evicted: seq<bool>, history: seq<seq<Digest>>, limits: Limits)
    requires |entries| == |evicted| && Lists(before, entries) && Left(before, after, entries, evicted)
    requires Evicts(entries, evicted, history, limits) && limits.maxSize.Some?
    ensures WithinSize(after, limits.maxSize.value)
  {
    var blobs := history[|entries|];
    HistoryListed(before, after, entries, evicted, history, limits, |entries|, 0);
    KeptWithinBudget(entries, evicted, history, limits, |entries|);
    forall id, h | id in after && after[id].Readable? && h in Hashes(after[id].digests) ensures h in Hashes(blobs) {
      assert RootedIn(after, h);
      KeptIsRooted(before, after, entries, evicted, history, limits, h);
    }
    assert HasBlobsOf(after, blobs);
  }

  lemma EvictedEntry(
      before: map<nat, ManifestFile>, after: map<nat, ManifestFile>, entries: seq<Entry>, evicted: seq<bool>, id: nat)
    returns (i: nat)
    requires |entries| == |evicted| && Lists(before, entries) && Left(before, after, entries, evicted)
    requires id in before && before[id].Readable?
    ensures i < |entries| && entries[i].id == id && before[id] == Readable(entries[i].mtime, entries[i].fileSize, entries[i].digests)
    ensures id in after <==> !evicted[i]
  {
    if id in after {
      var e :| e in entries && e.id == id;
      i :| 0 <= i < |entries| && entries[i] == e;
    } else {
      i :| 0 <= i < |entries| && entries[i].id == id && evicted[i];
    }
  }

  /** A manifest goes only if it is past its lifetime or does not fit beside newer ones, and in the first case always. */
  lemma GoneForReason(
      before: map<nat, ManifestFile>, after: map<nat, ManifestFile>,
      entries: seq<Entry>, evicted: seq<bool>, history: seq<seq<Digest>>, limits: Limits, id: nat)
    requires |entries| == |evicted| && Lists(before, entries) && Left(before, after, entries, evicted)
    requires Evicts(entries, evicted, history, limits) && Decreasing(entries, Mtime) && id in before && before[id].Readable?
    ensures id in after ==> Fresh(before[id], limits)
    ensures id !in after && Fresh(before[id], limits) ==> limits.maxSize.Some? && Overflows(after, before[id], limits.maxSize.value)
  {
    var i := EvictedEntry(before, after, entries, evicted, id);
    assert Decided(entries[i], evicted[i], history[i], limits);
    if id !in after && Fresh(before[id], limits) {
      HistoryListed(before, after, entries, evicted, history, limits, i, entries[i].mtime);
      MarginalIsExtra(entries[i].digests, Hashes(history[i]));
    }
  }

  /** Readable manifests within their lifetime list each hash once, always with the same size, and fit together. */
  ghost predicate FitTogether(manifests: map<nat, ManifestFile>, limits: Limits, all: seq<Digest>) {
    && EachHashOnce(all) && limits.maxSize.Some? && Sum(all, Bytes) <= limits.maxSize.value
    && forall id | id in manifests && Fresh(manifests[id], limits) ::
         EachHashOnce(manifests[id].digests) && Hashes(manifests[id].digests) <= Hashes(all) && SizesAgree(manifests[id].digests, all)
  }

  /** If all manifests within their lifetime fit together, none of them goes. */
  lemma AllThatFitsStays(
      before: map<nat, ManifestFile>, after: map<nat, ManifestFile>, limits: Limits, all: seq<Digest>, id: nat)
    requires FitTogether(before, limits, all) && id in before && Fresh(before[id], limits)
    requires forall x | x in after :: x in before && after[x] == before[x] && (after[x].Readable? ==> Fresh(after[x], limits))
    ensures !Overflows(after, before[id], limits.maxSize.value)
  {
    var m := before[id];
    forall blobs | BlobsSince(after, m.mtime, blobs) ensures Sum(blobs, Bytes) + Sum(m.digests, Extra(Hashes(blobs))) <= limits.maxSize.value {
      var added := FirstOf(m.digests, Hashes(blobs));
      MarginalIsExtra(m.digests, Hashes(blobs));
      MarginalIsFirst(m.digests, Hashes(blobs));
      FirstOfHashes(m.digests, Hashes(blobs));
      FirstOfOnce(m.digests, Hashes(blobs));
      FirstOfPart(m.digests, Hashes(blobs));
      OnceAppend(blobs, added);
      HashesAppend(blobs, added);
      SumAppend(blobs, added, Bytes);
      ListedAgree(before, after, limits, all, m.mtime, blobs);
      FewerBlobs(blobs + added, all);
    }
  }

  lemma ListedAgree(before: map<nat, ManifestFile>, after: map<nat, ManifestFile>, limits: Limits, all: seq<Digest>, since: nat, blobs: seq<Digest>)
    requires FitTogether(before, limits, all) && BlobsSince(after, since, blobs)
    requires forall x | x in after :: x in before && after[x] == before[x] && (after[x].Readable? ==> Fresh(after[x], limits))
    ensures Hashes(blobs) <= Hashes(all) && SizesAgree(blobs, all)
  {
    forall d | d in blobs ensures d.hash in Hashes(all) && forall e | e in all && e.hash == d.hash :: Bytes(e) == Bytes(d) {
      var x :| x in after && after[x].Readable? && after[x].mtime >= since && d in after[x].digests;
      assert Fresh(before[x], limits) && d.hash in Hashes(before[x].digests);
    }
  }

  /** Which manifests go, on the manifests before and after. */
  ghost predicate Evicted(before: map<nat, ManifestFile>, after: map<nat, ManifestFile>, limits: Limits) {
    && (forall id | id in after && after[id].Readable? :: Fresh(after[id], limits))
    && (limits.maxSize.None? ==> forall id | id in before && Fresh(before[id], limits) :: id in after)
    && (limits.maxSize.Some? ==> WithinSize(after, limits.maxSize.value))
    && (limits.maxSize.Some? ==> forall id | id in before && Fresh(before[id], limits) && id !in after ::
          Overflows(after, before[id], limits.maxSize.value))
    && ((exists all :: FitTogether(before, limits, all)) ==> forall id | id in before && Fresh(before[id], limits) :: id in after)
  }

  lemma EvictionExplained(
      before: map<nat, ManifestFile>, after: map<nat, ManifestFile>,
      entries: seq<Entry>, evicted: seq<bool>, history: seq<seq<Digest>>, limits: Limits)
    requires |entries| == |evicted| && Lists(before, entries) && Left(before, after, entries, evicted)
    requires Evicts(entries, evicted, history, limits) && Decreasing(entries, Mtime)
    ensures Evicted(before, after, limits)
  {
    forall id | id in before && before[id].Readable?
      ensures id in after ==> Fresh(before[id], limits)
      ensures id !in after && Fresh(before[id], limits) ==> limits.maxSize.Some? && Overflows(after, before[id], limits.maxSize.value)
    {
      GoneForReason(before, after, entries, evicted, history, limits, id);
    }
    if limits.maxSize.Some? {
      LeftWithinSize(before, after, entries, evicted, history, limits);
    }
    if all :| FitTogether(before, limits, all) {
      forall id | id in before && Fresh(before[id], limits) ensures id in after {
        AllThatFitsStays(before, after, limits, all, id);
      }
    }
  }

  class LocalStorage {
    var manifests: map<nat, ManifestFile>
    var blobs: map<nat, nat>

    /** The readable manifests, each as an entry under its own name. */
    method LoadEntries() returns (entries: seq<Entry>)
      ensures Lists(manifests, entries)
    {
      entries := [];
      var rest := manifests.Keys;
      while rest != {}
        invariant rest <= manifests.Keys && Distinct(entries) && forall e | e in entries :: e.id !in rest
        invariant forall e | e in entries :: e.id in manifests && manifests[e.id] == Readable(e.mtime, e.fileSize, e.digests)
        invariant forall id | id in manifests && id !in rest && manifests[id].Readable? :: exists e | e in entries :: e.id == id
        decreases rest
      {
        var id :| id in rest;
        rest := rest - {id};
        match manifests[id]
        case Unreadable => continue;
        case Readable(mtime, fileSize, digests) =>
          ghost var before := entries;
          entries := entries + [Entry(id, mtime, fileSize, digests)];
          forall other | other in manifests && other !in rest && manifests[other].Readable? ensures exists e | e in entries :: e.id == other {
            if other == id {
              assert entries[|entries| - 1].id == id;
            } else {
              var e :| e in before && e.id == other;
              assert e in entries;
            }
          }
      }
    }

    /** Removes the evicted files and no others. */
    method RemoveEvicted(entries: seq<Entry>, evicted: seq<bool>)
      requires |entries| == |evicted|
      modifies this`manifests
      ensures Left(old(manifests), manifests, entries, evicted)
    {
      for i := 0 to |entries|
        invariant manifests.Keys <= old(manifests).Keys && forall id | id in manifests :: manifests[id] == old(manifests)[id]
        invariant forall id | id in old(manifests) ::
          id in manifests <==> forall j | 0 <= j < i && entries[j].id == id :: !evicted[j]
      {
        if evicted[i] {
          manifests := manifests - {entries[i].id};
        }
      }
    }

    /** The reachability sweep, in whatever order the blobs are listed. */
    method Retain(keep: set<nat>, now: nat)
      modifies this`blobs
      ensures blobs == map h | h in old(blobs) && Spared(h, old(blobs)[h], keep, now) :: old(blobs)[h]
    {
      var rest := blobs.Keys;
      while rest != {}
        invariant rest <= blobs.Keys <= old(blobs).Keys && forall h | h in blobs :: blobs[h] == old(blobs)[h]
        invariant forall h | h in old(blobs) && h !in rest :: h in blobs <==> Spared(h, old(blobs)[h], keep, now)
        decreases rest
      {
        var h :| h in rest;
        rest := rest - {h};
        if h in keep {
          continue;
        }
        if Age(now, blobs[h]) <= BLOB_GRACE {
          continue;
        }
        blobs := blobs - {h};
      }
    }

    /**
     Collection alone in the cache: a readable manifest that survives loses no blob, and a blob
     goes exactly when no readable manifest that survives refers to it and it is past the grace.
     */
    method Gc(limits: Limits, later: nat)
      modifies this
      ensures manifests.Keys <= old(manifests).Keys && forall id | id in manifests :: manifests[id] == old(manifests)[id]
      ensures forall id | id in old(manifests) && old(manifests)[id].Unreadable? :: id in manifests
      ensures Evicted(old(manifests), manifests, limits)
      ensures blobs.Keys <= old(blobs).Keys
      ensures forall h | h in old(blobs) :: h in blobs <==> later <= old(blobs)[h] + 3600 || Rooted(h)
    {
      var found := LoadEntries();
      var keep, removed, saved, entries, evicted;
      ghost var history;
      keep, removed, saved, entries, evicted, history := EvictManifests(found, limits);
      ghost var before := manifests;
      Loaded(before, found, entries);
      RemoveEvicted(entries, evicted);
      Retain(keep, later);
      EvictionExplained(before, manifests, entries, evicted, history, limits);
      forall h ensures h in keep <==> Rooted(h) {
        KeptIsRooted(before, manifests, entries, evicted, history, limits, h);
      }
    }

    /** A readable manifest refers to the blob. */
    ghost predicate Rooted(h: nat)
      reads this
    {
      RootedIn(manifests, h)
    }
  }
}

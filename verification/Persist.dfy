/**
 Storing a manifest after its blobs, in a storage backend that answers as it likes within bounds.
 */
module Persist {
  import opened Batching
  import opened Digests
  import opened Sequences

  datatype Reply<+T> = Answer(value: T) | Error

  /** `StoreResult`. */
  datatype StoreResult = StoreResult(storeCount: nat, storedCount: nat, missingCount: nat, success: bool)

  /**
   How a backend answers its `call`-th request: which digests it reports missing, which it reports
   stored, and which digests are in fact present after a store request, answered or not.
   */
  datatype Conduct = Conduct(
    finds: (nat, seq<Digest>, set<Digest>) -> Reply<seq<Digest>>,
    stores: (nat, seq<Digest>) -> Reply<seq<Digest>>,
    keeps: (nat, seq<Digest>) -> set<Digest>,
    acceptsManifest: nat -> bool,
    length: Digest -> nat,
    maxBatchSize: nat,
    storeManifests: bool)

  /**
   A backend reports every absent digest it is asked about, perhaps more than once and perhaps
   others too; it reports nothing stored that it was not given, or more often than it was given;
   and what it reports stored is present.
   */
  ghost predicate Honest(c: Conduct) {
    && (forall k, ds, present, d | c.finds(k, ds, present).Answer? && d in ds && d !in present :: d in c.finds(k, ds, present).value)
    && (forall k, ds | c.stores(k, ds).Answer? ::
          multiset(c.stores(k, ds).value) <= multiset(ds) && forall d | d in c.stores(k, ds).value :: d in c.keeps(k, ds))
  }

  /** A backend that reports each absent digest once and nothing else, and stores all it is given. */
  ghost predicate Reliable(c: Conduct) {
    && (forall k, ds, present :: c.finds(k, ds, present).Answer? && multiset(c.finds(k, ds, present).value) <= multiset(ds))
    && (forall k, ds :: c.stores(k, ds).Answer? && multiset(c.stores(k, ds).value) == multiset(ds))
  }

  /** The backend reported the digest missing in one of the calls. */
  ghost predicate Reported(c: Conduct, present: set<Digest>, first: nat, next: nat, d: Digest) {
    exists k, ds | first <= k < next :: c.finds(k, ds, present).Answer? && d in c.finds(k, ds, present).value
  }

  ghost predicate AllReported(c: Conduct, present: set<Digest>, first: nat, next: nat, missing: seq<Digest>) {
    forall d | d in missing :: Reported(c, present, first, next, d)
  }

  /** A backend that reports no digest missing which is present. */
  ghost predicate Exact(c: Conduct) {
    forall k, ds, present, d | c.finds(k, ds, present).Answer? && d in c.finds(k, ds, present).value :: d !in present
  }

  /** `retain(|input| seen.insert(..))`: the first occurrence of each digest. */
  method Deduplicate(inputs: seq<Digest>) returns (unique: seq<Digest>)
    ensures Distinct(unique) && forall d :: d in unique <==> d in inputs
  {
    unique := [];
    var seen: set<Digest> := {};
    for i := 0 to |inputs|
      invariant Distinct(unique) && (forall d :: d in unique <==> d in seen) && forall d :: d in seen <==> d in inputs[..i]
    {
      if inputs[i] !in seen {
        seen := seen + {inputs[i]};
        unique := unique + [inputs[i]];
      }
    }
  }

  /** `retain(|source| missing.contains(..))`. */
  method Retain(inputs: seq<Digest>, missing: set<Digest>) returns (kept: seq<Digest>)
    requires Distinct(inputs)
    ensures Distinct(kept) && forall d :: d in kept <==> d in inputs && d in missing
  {
    kept := [];
    for i := 0 to |inputs|
      invariant Distinct(kept) && forall d :: d in kept <==> d in inputs[..i] && d in missing
    {
      if inputs[i] in missing {
        kept := kept + [inputs[i]];
      }
    }
  }

  lemma ContentsWithout<T>(batches: seq<Batch<T>>, k: nat)
    requires k < |batches|
    ensures Contents(Without(batches, k)) == Without(Contents(batches), k)
  {
  }

  class Backend {
    const conduct: Conduct
    var present: set<Digest>
    var manifests: map<Digest, set<Digest>>
    var calls: nat

    /** Everything that was uploaded, for the record. */
    ghost var given: multiset<Digest>

    constructor (conduct: Conduct, present: set<Digest>)
      ensures this.conduct == conduct && this.present == present && manifests == map[] && given == multiset{}
    {
      this.conduct := conduct;
      this.present := present;
      manifests := map[];
      calls := 0;
      given := multiset{};
    }

    /** No stored manifest refers to a blob that is not there. */
    ghost predicate NoDangling()
      reads this
    {
      forall m | m in manifests :: manifests[m] <= present
    }

    method FindMissingBlobs(ds: seq<Digest>) returns (r: Reply<seq<Digest>>)
      modifies this`calls
      ensures r == conduct.finds(old(calls), ds, present) && calls == old(calls) + 1
    {
      r := conduct.finds(calls, ds, present);
      calls := calls + 1;
    }

    method StoreBlobs(ds: seq<Digest>, stream: bool) returns (r: Reply<seq<Digest>>)
      modifies this`calls, this`present, this`given
      ensures r == conduct.stores(old(calls), ds) && present == old(present) + conduct.keeps(old(calls), ds)
      ensures given == old(given) + multiset(ds) && calls == old(calls) + 1
    {
      given := given + multiset(ds);
      r := conduct.stores(calls, ds);
      present := present + conduct.keeps(calls, ds);
      calls := calls + 1;
    }

    /** Asks batch by batch, in whatever order the answers come in. */
    method FindMissingBlobsBatched(ds: seq<Digest>) returns (r: Reply<seq<Digest>>)
      requires Honest(conduct)
      modifies this`calls
      ensures r.Answer? ==> forall d | d in ds && d !in present :: d in r.value
      ensures r.Answer? ==> AllReported(conduct, present, old(calls), calls, r.value)
      ensures Reliable(conduct) ==> r.Answer? && multiset(r.value) <= multiset(ds)
    {
      ghost var streams;
      var left;
      left, streams := CreateBatches(ds, conduct.maxBatchSize, conduct.length);
      var missing := [];
      AllAsked(ds, present, left);
      while left != []
        invariant Asked(ds, present, missing, left) && old(calls) <= calls
        invariant AllReported(conduct, present, old(calls), calls, missing)
        invariant Reliable(conduct) ==> multiset(missing) + multiset(Flat(Contents(left))) <= multiset(ds)
        decreases |left|
      {
        var k :| 0 <= k < |left|;
        var answer := FindMissingBlobs(left[k].items);
        if answer.Error? {
          return Error;
        }
        OneAsked(ds, present, missing, left, k, answer.value);
        OneReported(conduct, present, old(calls), calls, missing, left[k].items);
        missing := missing + answer.value;
        left := Without(left, k);
      }
      r := Answer(missing);
    }

    /** Uploads batch by batch, joined in whatever order they end, until a signal arrives. */
    method StoreEach(inputs: seq<Digest>, signalled: nat -> bool) returns (uploaded: seq<Digest>, errors: nat, abort: bool)
      requires Honest(conduct)
      modifies this`calls, this`present, this`given
      ensures old(present) <= present && multiset(uploaded) <= multiset(inputs) && forall d | d in uploaded :: d in present
      ensures given <= old(given) + multiset(inputs) && old(calls) <= calls
      ensures Reliable(conduct) && (forall n :: !signalled(n)) ==> !abort && errors == 0 && |uploaded| == |inputs|
    {
      ghost var streams;
      var left;
      left, streams := CreateBatches(inputs, conduct.maxBatchSize, UnsignedSize);
      ghost var all := multiset(inputs);
      uploaded, errors, abort := [], 0, false;
      var joined := 0;
      while left != []
        invariant old(present) <= present && old(calls) <= calls && forall d | d in uploaded :: d in present
        invariant Storing(uploaded, left, all, old(given), given)
        invariant !abort && (Reliable(conduct) ==> errors == 0 && AllStored(uploaded, left, all))
        decreases |left|
      {
        var k :| 0 <= k < |left|;
        ghost var given0 := given;
        var answer := StoreBlobs(left[k].items, left[k].stream);
        OneStored(uploaded, left, k, all, old(given), given0, if answer.Answer? then answer.value else []);
        left := Without(left, k);
        if signalled(joined) {
          abort := true;
          break;
        }
        joined := joined + 1;
        match answer
        case Answer(digests) => uploaded := uploaded + digests;
        case Error => errors := errors + 1;
      }
      StoredSoFar(uploaded, left, all, old(given), given);
      assert |multiset(uploaded)| == |uploaded| && |all| == |inputs|;
    }

    /** Success is decided by counting, yet it means that every input is present. */
    method StoreBlobsBatched(inputs: seq<Digest>, signalled: nat -> bool) returns (result: StoreResult)
      requires Honest(conduct)
      modifies this`calls, this`present, this`given
      ensures old(present) <= present
      ensures result.success ==> forall d | d in inputs :: d in present
      // Only inputs that the backend reported missing are uploaded, each at most once.
      ensures forall d | given[d] > old(given)[d] ::
        given[d] == old(given)[d] + 1 && d in inputs && Reported(conduct, old(present), old(calls), calls, d)
      ensures Exact(conduct) ==> forall d | d in old(present) :: given[d] <= old(given)[d]
      ensures Reliable(conduct) && (forall n :: !signalled(n)) ==> result.success
    {
      var unique := Deduplicate(inputs);
      result := StoreResult(|unique|, 0, 0, false);
      var found := FindMissingBlobsBatched(unique);
      if found.Error? {
        return;
      }
      var missing := found.value;
      result := result.(missingCount := |missing|);
      if missing == [] {
        return result.(storedCount := result.storeCount, success := true);
      }
      var wanted := Retain(unique, set d | d in missing);
      DistinctIsShorter(wanted, missing);
      if Reliable(conduct) {
        DistinctPart(unique, missing);
        DistinctIsShorter(missing, wanted);
      }
      ghost var asked := calls;
      var uploaded, errors, abort := StoreEach(wanted, signalled);
      GivenOnce(conduct, old(present), old(calls), asked, calls, wanted, old(given), given);
      result := result.(storedCount := |uploaded|);
      if abort || errors > 0 {
        return;
      }
      result := result.(success := result.storedCount == result.missingCount);
      if result.success {
        AllUploaded(wanted, uploaded);
      }
    }

    /** Stores the manifest only after all its blobs. */
    method PersistManifest(digest: Digest, blobs: seq<Digest>, signalled: nat -> bool)
      requires Honest(conduct)
      modifies this
      ensures old(NoDangling()) ==> NoDangling()
      ensures manifests == old(manifests) || manifests == old(manifests)[digest := set d | d in blobs]
      ensures manifests != old(manifests) ==> forall d | d in blobs :: d in present
      ensures Reliable(conduct) && (forall n :: !signalled(n)) && conduct.storeManifests && (forall n :: conduct.acceptsManifest(n)) ==>
        manifests == old(manifests)[digest := set d | d in blobs]
    {
      if blobs != [] {
        var stored := StoreBlobsBatched(blobs, signalled);
        if !stored.success {
          return;
        }
      }
      if conduct.storeManifests && conduct.acceptsManifest(calls) {
        manifests := manifests[digest := set d | d in blobs];
      }
    }
  }

  /** As many uploads as inputs, none of them foreign or repeated, are all the inputs. */
  lemma AllUploaded(wanted: seq<Digest>, uploaded: seq<Digest>)
    requires multiset(uploaded) <= multiset(wanted) && |uploaded| >= |wanted|
    ensures forall d | d in wanted :: d in uploaded
  {
    SubsetOfEqualSize(multiset(uploaded), multiset(wanted));
    forall d | d in wanted ensures d in uploaded {
      assert d in multiset(wanted);
    }
  }

  /** The items of batches that were not stored yet. */
  ghost function Waiting(left: seq<Batch<Digest>>): multiset<Digest> {
    multiset(Flat(Contents(left)))
  }

  /** What was stored and what waits are no more than all, and what waits was not uploaded yet. */
  ghost predicate Storing(
      uploaded: seq<Digest>, left: seq<Batch<Digest>>, all: multiset<Digest>, before: multiset<Digest>, given: multiset<Digest>)
  {
    multiset(uploaded) + Waiting(left) <= all && given + Waiting(left) == before + all
  }

  ghost predicate AllStored(uploaded: seq<Digest>, left: seq<Batch<Digest>>, all: multiset<Digest>) {
    multiset(uploaded) + Waiting(left) == all
  }

  lemma OneStored(
      uploaded: seq<Digest>, left: seq<Batch<Digest>>, k: nat, all: multiset<Digest>, before: multiset<Digest>, given: multiset<Digest>, stored: seq<Digest>)
    requires k < |left| && Storing(uploaded, left, all, before, given) && multiset(stored) <= multiset(left[k].items)
    ensures var now := given + multiset(left[k].items);
      Storing(uploaded, Without(left, k), all, before, now) && Storing(uploaded + stored, Without(left, k), all, before, now)
    ensures AllStored(uploaded, left, all) && multiset(stored) == multiset(left[k].items) ==> AllStored(uploaded + stored, Without(left, k), all)
  {
    FlatWithout(Contents(left), k);
    ContentsWithout(left, k);
    assert Waiting(left) == Waiting(Without(left, k)) + multiset(left[k].items);
  }

  lemma StoredSoFar(
      uploaded: seq<Digest>, left: seq<Batch<Digest>>, all: multiset<Digest>, before: multiset<Digest>, given: multiset<Digest>)
    requires Storing(uploaded, left, all, before, given)
    ensures multiset(uploaded) <= all && given <= before + all
    ensures left == [] && AllStored(uploaded, left, all) ==> multiset(uploaded) == all
  {
  }

  /** What was uploaded is wanted, so it was reported missing and uploaded once. */
  lemma GivenOnce(
      c: Conduct, present: set<Digest>, first: nat, asked: nat, next: nat, wanted: seq<Digest>, before: multiset<Digest>, given: multiset<Digest>)
    requires Distinct(wanted) && given <= before + multiset(wanted) && asked <= next
    requires forall d | d in wanted :: Reported(c, present, first, asked, d)
    ensures forall d | given[d] > before[d] :: given[d] == before[d] + 1 && d in wanted && Reported(c, present, first, next, d)
  {
    forall d | given[d] > before[d] ensures given[d] == before[d] + 1 && d in wanted && Reported(c, present, first, next, d) {
      assert d in multiset(wanted) && Reported(c, present, first, asked, d);
      OnceCounted(wanted, d);
      var k, ds :| first <= k < asked && c.finds(k, ds, present).Answer? && d in c.finds(k, ds, present).value;
      assert first <= k < next;
    }
  }

  lemma OneReported(c: Conduct, present: set<Digest>, first: nat, next: nat, missing: seq<Digest>, ds: seq<Digest>)
    requires first < next && c.finds(next - 1, ds, present).Answer?
    requires AllReported(c, present, first, next - 1, missing)
    ensures AllReported(c, present, first, next, missing + c.finds(next - 1, ds, present).value)
  {
    forall d | d in missing ensures Reported(c, present, first, next, d) {
      var k, asked :| first <= k < next - 1 && c.finds(k, asked, present).Answer? && d in c.finds(k, asked, present).value;
      assert first <= k < next;
    }
  }

  /** What is absent was reported missing, or its batch was not answered yet. */
  ghost predicate Asked(ds: seq<Digest>, present: set<Digest>, missing: seq<Digest>, left: seq<Batch<Digest>>) {
    forall d | d in ds && d !in present :: d in missing || d in multiset(Flat(Contents(left)))
  }

  lemma AllAsked(ds: seq<Digest>, present: set<Digest>, left: seq<Batch<Digest>>)
    requires multiset(Flat(Contents(left))) == multiset(ds)
    ensures Asked(ds, present, [], left)
  {
  }

  lemma OneAsked(
      ds: seq<Digest>, present: set<Digest>, missing: seq<Digest>, left: seq<Batch<Digest>>, k: nat, more: seq<Digest>)
    requires Asked(ds, present, missing, left) && k < |left|
    requires forall d | d in left[k].items && d !in present :: d in more
    ensures Asked(ds, present, missing + more, Without(left, k))
    ensures multiset(Flat(Contents(left))) == multiset(Flat(Contents(Without(left, k)))) + multiset(left[k].items)
  {
    FlatWithout(Contents(left), k);
    ContentsWithout(left, k);
    forall d | d in ds && d !in present ensures d in missing + more || d in multiset(Flat(Contents(Without(left, k)))) {
      assert d in missing || d in multiset(Flat(Contents(left)));
    }
  }
}

/** The flattening of the decoded timestamp -> samples map into the list of stamped samples. */
module Flattening {
  import opened Telemetry

  /** The samples of one bucket, each stamped with the bucket's timestamp. */
  function Stamped(b: Bucket): (r: seq<TsKvEntry>)
    ensures |r| == |b.entries|
    ensures forall j :: 0 <= j < |r| ==> r[j] == TsKvEntry(b.ts, b.entries[j])
  {
    seq(|b.entries|, j requires 0 <= j < |b.entries| => TsKvEntry(b.ts, b.entries[j]))
  }

  /** All buckets' stamped samples, bucket after bucket, in bucket order. */
  function Flatten(buckets: Buckets): (entries: seq<TsKvEntry>) {
    if buckets == [] then [] else Flatten(buckets[..|buckets| - 1]) + Stamped(buckets[|buckets| - 1])
  }

  /** The number of samples in all buckets together. */
  function TotalSize(buckets: Buckets): (size: nat) {
    if buckets == [] then 0 else TotalSize(buckets[..|buckets| - 1]) + |buckets[|buckets| - 1].entries|
  }

  /** The flattened list holds exactly as many entries as the buckets hold samples. */
  lemma {:induction false} FlattenLength(buckets: Buckets)
    ensures |Flatten(buckets)| == TotalSize(buckets)
  {
    if buckets != [] {
      FlattenLength(buckets[..|buckets| - 1]);
    }
  }

  /**
   * Sample j of bucket i sits at position TotalSize(buckets[..i]) + j of the flattened list,
   * stamped with bucket i's timestamp: every bucket's samples appear contiguously, in their
   * own order, after those of the buckets before it.
   */
  lemma {:induction false} FlattenAt(buckets: Buckets, i: nat, j: nat)
    requires i < |buckets| && j < |buckets[i].entries|
    ensures TotalSize(buckets[..i]) + j < |Flatten(buckets)|
    ensures Flatten(buckets)[TotalSize(buckets[..i]) + j] == TsKvEntry(buckets[i].ts, buckets[i].entries[j])
  {
    var n := |buckets| - 1;
    var init := buckets[..n];
    FlattenLength(init);
    if i == n {
      assert buckets[..i] == init;
    } else {
      assert init[..i] == buckets[..i];
      FlattenAt(init, i, j);
    }
  }

  /** Every flattened entry is a sample of some bucket, stamped with that bucket's timestamp. */
  lemma {:induction false} FlattenOrigin(buckets: Buckets, k: nat)
    requires k < |Flatten(buckets)|
    ensures exists i :: 0 <= i < |buckets| && Flatten(buckets)[k].ts == buckets[i].ts &&
                        Flatten(buckets)[k].kv in buckets[i].entries
  {
    var n := |buckets| - 1;
    var init := buckets[..n];
    FlattenLength(init);
    if k < |Flatten(init)| {
      FlattenOrigin(init, k);
      var i :| 0 <= i < |init| && Flatten(init)[k].ts == init[i].ts && Flatten(init)[k].kv in init[i].entries;
      assert buckets[i] == init[i];
    } else {
      var j := k - |Flatten(init)|;
      assert Flatten(buckets)[k] == Stamped(buckets[n])[j];
      assert buckets[n].entries[j] in buckets[n].entries;
    }
  }

  /** The node's nested loop over the map's entries and each entry's samples. */
  method FlattenEntries(buckets: Buckets) returns (tsKvEntryList: seq<TsKvEntry>)
    ensures tsKvEntryList == Flatten(buckets)
  {
    tsKvEntryList := [];
    var i := 0;
    while i < |buckets|
      invariant 0 <= i <= |buckets|
      invariant tsKvEntryList == Flatten(buckets[..i])
    {
      var bucket := buckets[i];
      var j := 0;
      while j < |bucket.entries|
        invariant 0 <= j <= |bucket.entries|
        invariant tsKvEntryList == Flatten(buckets[..i]) + Stamped(bucket)[..j]
      {
        tsKvEntryList := tsKvEntryList + [TsKvEntry(bucket.ts, bucket.entries[j])];
        j := j + 1;
      }
      assert Stamped(bucket)[..j] == Stamped(bucket);
      assert buckets[..i + 1][..i] == buckets[..i];
      i := i + 1;
    }
    assert buckets[..i] == buckets;
  }
}

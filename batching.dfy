/** Batch deletion in slices of at most ten (`lst[i:i+10]` for `i` in
    `range(0, len(lst), 10)`), used for SSM parameter names and for StackSet
    instances. */
module Batching {
  import opened Seqs

  /** The most names or instances one delete call may carry. */
  const BatchSize: nat := 10

  function Min(a: int, b: int): int
  {
    if a <= b then a else b
  }

  /** Python's clamped slice `s[i:i+10]`, for a start `i` inside the list. */
  function SliceFrom<T>(s: seq<T>, i: nat): seq<T>
    requires i <= |s|
  {
    s[i..Min(i + BatchSize, |s|)]
  }

  /** The batches of a list, in order; none is empty and none holds more
      than ten items. */
  function Batches<T>(s: seq<T>): (r: seq<seq<T>>)
    ensures s == [] <==> r == []
    ensures forall k :: 0 <= k < |r| ==> 0 < |r[k]| <= BatchSize
    decreases |s|
  {
    if s == [] then []
    else if |s| <= BatchSize then [s]
    else
      var rest := Batches(s[BatchSize..]);
      assert forall k :: 1 <= k <= |rest| ==> ([s[..BatchSize]] + rest)[k] == rest[k - 1];
      [s[..BatchSize]] + rest
  }

  /** Concatenating the batches gives back the list: nothing is lost,
      duplicated or reordered by batching. */
  lemma {:induction false} BatchesFlatten<T>(s: seq<T>)
    ensures Flatten(Batches(s)) == s
    decreases |s|
  {
    if s != [] && |s| > BatchSize {
      BatchesFlatten(s[BatchSize..]);
      assert Flatten(Batches(s)) == s[..BatchSize] + Flatten(Batches(s[BatchSize..]));
      assert s[..BatchSize] + s[BatchSize..] == s;
    } else if s != [] {
      assert Flatten([s]) == s + Flatten([s][1..]);
      assert [s][1..] == [];
    }
  }

  /** Every batch but the last holds exactly ten items, and there are
      ceil(|s| / 10) of them. */
  lemma {:induction false} BatchesBounds<T>(s: seq<T>)
    ensures |Batches(s)| == (|s| + BatchSize - 1) / BatchSize
    ensures forall k :: 0 <= k < |Batches(s)| - 1 ==> |Batches(s)[k]| == BatchSize
    decreases |s|
  {
    if |s| > BatchSize {
      var rest := s[BatchSize..];
      BatchesBounds(rest);
      assert Batches(s) == [s[..BatchSize]] + Batches(rest);
      assert forall k :: 1 <= k < |Batches(s)| ==> Batches(s)[k] == Batches(rest)[k - 1];
    }
  }

  /** The k-th batch is the slice that the k-th turn of
      `for i in range(0, len(s), 10)` takes, `s[10k:10k+10]`. */
  lemma {:induction false} BatchAt<T>(s: seq<T>, k: nat)
    requires k < |Batches(s)|
    ensures k * BatchSize < |s|
    ensures Batches(s)[k] == SliceFrom(s, k * BatchSize)
    decreases |s|
  {
    if |s| > BatchSize && k > 0 {
      var rest := s[BatchSize..];
      assert Batches(s) == [s[..BatchSize]] + Batches(rest);
      BatchAt(rest, k - 1);
      assert rest[(k - 1) * BatchSize..Min((k - 1) * BatchSize + BatchSize, |rest|)]
          == s[k * BatchSize..Min(k * BatchSize + BatchSize, |s|)];
    }
  }

  /** The loop `for i in range(0, len(s), 10)` runs once per batch. */
  lemma BatchCount<T>(s: seq<T>, k: nat)
    ensures k < |Batches(s)| <==> k * BatchSize < |s|
  {
    BatchesBounds(s);
  }

  // ----- StackSet instances -----

  /** A StackSet instance: the account and the region it is deployed to. */
  datatype StackInstance = StackInstance(account: string, region: string)

  /** The `Accounts` and `Regions` arguments built from one batch, position
      for position: entry k of both lists comes from instance k. */
  function SplitInstances(batch: seq<StackInstance>): (r: (seq<string>, seq<string>))
    ensures |r.0| == |batch| && |r.1| == |batch|
    ensures forall k :: 0 <= k < |batch| ==> StackInstance(r.0[k], r.1[k]) == batch[k]
  {
    (seq(|batch|, k requires 0 <= k < |batch| => batch[k].account),
     seq(|batch|, k requires 0 <= k < |batch| => batch[k].region))
  }

  /** Pairs up two lists position for position. */
  function Zip(accounts: seq<string>, regions: seq<string>): (r: seq<StackInstance>)
    requires |accounts| == |regions|
  {
    if accounts == [] then [] else [StackInstance(accounts[0], regions[0])] + Zip(accounts[1..], regions[1..])
  }

  /** Splitting a batch and zipping the two lists back gives the batch. */
  lemma {:induction false} SplitZip(batch: seq<StackInstance>)
    ensures Zip(SplitInstances(batch).0, SplitInstances(batch).1) == batch
  {
    if batch != [] {
      var (accounts, regions) := SplitInstances(batch);
      SplitZip(batch[1..]);
      assert accounts[1..] == SplitInstances(batch[1..]).0;
      assert regions[1..] == SplitInstances(batch[1..]).1;
    }
  }
}

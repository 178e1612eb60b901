/** Weight batching (src/core/dispatcher.rs:55-83): the loop and what its batches are. */
module BatchLaws {
  import opened Types
  import opened Oracles
  import opened Engines

  function Weight(batch: seq<CoordinatedTx>): nat {
    if batch == [] then 0 else Weight(batch[..|batch| - 1]) + batch[|batch| - 1].tx.weight
  }

  function Flatten(batches: seq<seq<CoordinatedTx>>): seq<CoordinatedTx> {
    if batches == [] then [] else batches[0] + Flatten(batches[1..])
  }

  /** The batches of `parents`, at most `max` of them. */
  function Batches(cfg: Config, parents: seq<CoordinatedTx>, max: nat): seq<seq<CoordinatedTx>>
    decreases max
  {
    if max == 0 || parents == [] then []
    else
      var n := FirstBatch(cfg, parents, 0, 0);
      [parents[..n]] + Batches(cfg, parents[n..], max - 1)
  }

  predicate Fits(cfg: Config, batch: seq<CoordinatedTx>) {
    Weight(batch) <= cfg.maxTxWeight
  }

  lemma WeightNext(parents: seq<CoordinatedTx>, n: nat)
    requires n < |parents|
    ensures Weight(parents[..n + 1]) == Weight(parents[..n]) + parents[n].tx.weight
  {
    assert parents[..n + 1][..n] == parents[..n];
  }

  /** The first batch fits or is a singleton, and the next parent would not fit any more. */
  lemma {:induction false} FirstBatchIsGreedy(cfg: Config, parents: seq<CoordinatedTx>, taken: nat)
    requires taken <= |parents| && (Fits(cfg, parents[..taken]) || taken <= 1)
    ensures var n := FirstBatch(cfg, parents, taken, Weight(parents[..taken]));
      && (Fits(cfg, parents[..n]) || n <= 1)
      && (n < |parents| ==> n > 0 && Weight(parents[..n]) + parents[n].tx.weight > cfg.maxTxWeight)
    decreases |parents| - taken
  {
    if taken < |parents| && !(taken > 0 && Weight(parents[..taken]) + parents[taken].tx.weight > cfg.maxTxWeight) {
      WeightNext(parents, taken);
      FirstBatchIsGreedy(cfg, parents, taken + 1);
    }
  }

  /** Everything the batching promises of `batches`. */
  ghost predicate GoodBatches(cfg: Config, parents: seq<CoordinatedTx>, max: nat, batches: seq<seq<CoordinatedTx>>) {
    && Flatten(batches) <= parents
    && |batches| <= max
    && (|batches| < max ==> Flatten(batches) == parents)
    && (forall i :: 0 <= i < |batches| ==> batches[i] != [] && (Fits(cfg, batches[i]) || |batches[i]| == 1))
    && (forall i :: 0 <= i < |batches| ==> Maximal(cfg, parents, batches, i))
  }

  /** The parent after the `i`-th batch, if there is one, would overflow that batch. */
  predicate Maximal(cfg: Config, parents: seq<CoordinatedTx>, batches: seq<seq<CoordinatedTx>>, i: nat)
    requires i < |batches|
  {
    var after := |Flatten(batches[..i + 1])|;
    after < |parents| ==> Weight(batches[i]) + parents[after].tx.weight > cfg.maxTxWeight
  }

  lemma {:induction false} BatchesAreGood(cfg: Config, parents: seq<CoordinatedTx>, max: nat)
    ensures GoodBatches(cfg, parents, max, Batches(cfg, parents, max))
    decreases max
  {
    if max > 0 && parents != [] {
      var n := FirstBatch(cfg, parents, 0, 0);
      var head, rest := parents[..n], parents[n..];
      var tail := Batches(cfg, rest, max - 1);
      var all := [head] + tail;
      assert parents[..0] == [];
      FirstBatchIsGreedy(cfg, parents, 0);
      BatchesAreGood(cfg, rest, max - 1);
      hide FirstBatch, Batches;
      assert all[1..] == tail;
      assert Flatten(all) == head + Flatten(tail);
      assert parents == head + rest;
      forall i | 0 <= i < |all|
        ensures all[i] != [] && (Fits(cfg, all[i]) || |all[i]| == 1) && Maximal(cfg, parents, all, i)
      {
        MaximalShifts(cfg, parents, head, rest, tail, i);
      }
    }
  }

  lemma MaximalShifts(cfg: Config, parents: seq<CoordinatedTx>, head: seq<CoordinatedTx>, rest: seq<CoordinatedTx>,
                      tail: seq<seq<CoordinatedTx>>, i: nat)
    requires parents == head + rest && i <= |tail| && head != []
    requires rest != [] ==> Weight(head) + rest[0].tx.weight > cfg.maxTxWeight
    requires forall j :: 0 <= j < |tail| ==> Maximal(cfg, rest, tail, j)
    ensures Maximal(cfg, parents, [head] + tail, i)
  {
    var all := [head] + tail;
    assert all[..i + 1] == [head] + tail[..i];
    assert all[..i + 1][1..] == tail[..i];
    assert Flatten(all[..i + 1]) == head + Flatten(tail[..i]);
    if i > 0 {
      assert Maximal(cfg, rest, tail, i - 1);
      assert tail[..i - 1 + 1] == tail[..i];
    } else {
      assert Flatten(tail[..0]) == [];
    }
  }

  /** The batch that starts at `start` has reached `i` with weight `w`. */
  predicate Growing(cfg: Config, parents: seq<CoordinatedTx>, start: nat, i: nat, w: nat) {
    start <= i <= |parents|
    && FirstBatch(cfg, parents[start..], 0, 0) == FirstBatch(cfg, parents[start..], i - start, w)
  }

  lemma Grows(cfg: Config, parents: seq<CoordinatedTx>, start: nat, i: nat, w: nat)
    requires Growing(cfg, parents, start, i, w) && i < |parents|
    ensures var w' := w + parents[i].tx.weight;
            if start < i && w' > cfg.maxTxWeight then FirstBatch(cfg, parents[start..], 0, 0) == i - start
            else Growing(cfg, parents, start, i + 1, w')
  {
    assert parents[start..][i - start] == parents[i];
  }

  lemma Opens(cfg: Config, parents: seq<CoordinatedTx>, i: nat)
    requires i < |parents|
    ensures Growing(cfg, parents, i, i + 1, parents[i].tx.weight)
  {
    Grows(cfg, parents, i, i, 0);
  }

  /** A batch that ends at `i` is split off. */
  lemma Closes(cfg: Config, parents: seq<CoordinatedTx>, start: nat, i: nat, max: nat)
    requires start < i <= |parents| && max > 0 && FirstBatch(cfg, parents[start..], 0, 0) == i - start
    ensures Batches(cfg, parents[start..], max) == [parents[start..i]] + Batches(cfg, parents[i..], max - 1)
  {
    assert parents[start..][..i - start] == parents[start..i];
    assert parents[start..][i - start..] == parents[i..];
  }

  lemma EndsGrowing(cfg: Config, parents: seq<CoordinatedTx>, start: nat, w: nat)
    requires Growing(cfg, parents, start, |parents|, w)
    ensures FirstBatch(cfg, parents[start..], 0, 0) == |parents| - start
  {}

  lemma NoneLeft(cfg: Config, parents: seq<CoordinatedTx>, max: nat)
    ensures Batches(cfg, parents[|parents|..], max) == [] && Batches(cfg, parents, 0) == []
  {}

  /** The loop: one pass over the parents with a growing current batch. */
  method BatchByWeight(cfg: Config, parents: seq<CoordinatedTx>, maxBatches: nat) returns (batches: seq<seq<CoordinatedTx>>)
    ensures batches == Batches(cfg, parents, maxBatches)
    ensures GoodBatches(cfg, parents, maxBatches, batches)
  {
    hide FirstBatch, Batches, GoodBatches, Growing;
    batches := [];
    var current: seq<CoordinatedTx> := [];
    var currentWeight: nat := 0;
    ghost var start: nat := 0;
    var i: nat := 0;
    assert parents[0..] == parents;
    assert Growing(cfg, parents, 0, 0, 0) by { Starts(cfg, parents); }
    while i < |parents| && |batches| < maxBatches
      invariant start <= i <= |parents| && |batches| <= maxBatches
      invariant current == parents[start..i] && (i > 0 ==> start < i)
      invariant Batches(cfg, parents, maxBatches) == batches + Batches(cfg, parents[start..], maxBatches - |batches|)
      invariant Growing(cfg, parents, start, i, currentWeight)
    {
      var weight := parents[i].tx.weight;
      Grows(cfg, parents, start, i, currentWeight);
      if current != [] && currentWeight + weight > cfg.maxTxWeight {
        Closes(cfg, parents, start, i, maxBatches - |batches|);
        Opens(cfg, parents, i);
        batches := batches + [current];
        current := [];
        currentWeight := 0;
        start := i;
      }
      assert parents[start..i] + [parents[i]] == parents[start..i + 1];
      current := current + [parents[i]];
      currentWeight := currentWeight + weight;
      i := i + 1;
    }
    NoneLeft(cfg, parents, maxBatches);
    if current != [] && |batches| < maxBatches {
      EndsGrowing(cfg, parents, start, currentWeight);
      Closes(cfg, parents, start, i, maxBatches - |batches|);
      NoneLeft(cfg, parents, maxBatches - |batches| - 1);
      batches := batches + [current];
    } else if |batches| == maxBatches {
      NoneLeft(cfg, parents[start..], 0);
    }
    BatchesAreGood(cfg, parents, maxBatches);
  }

  lemma Starts(cfg: Config, parents: seq<CoordinatedTx>)
    ensures Growing(cfg, parents, 0, 0, 0)
  {}
}

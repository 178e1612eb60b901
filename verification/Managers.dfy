/** The fee loops (src/core/fee.rs) and the funding manager (src/core/funding.rs) in their imperative form. */
module Managers {
  import opened Types
  import opened Oracles
  import States
  import Fees
  import Funding
  import opened Stores

  // ---------------------------------------------------------------- fees

  /** The loop of `chain_fee_diff`; it also returns the chain's size. */
  method ChainFeeDiff(rate: nat, chain: seq<CoordinatedTx>) returns (diff: nat, vsize: nat)
    ensures diff == Fees.ChainFeeDiff(rate, chain)
    ensures vsize == Fees.TotalVsize(chain)
  {
    diff, vsize := 0, 0;
    if chain == [] {
      return;
    }
    hide Fees.TotalVsize;
    var last := chain[|chain| - 1].feeInfo.packageFeeRate;
    var step := SaturatingSub(rate, last);
    var i := 0;
    assert chain[0..] == chain;
    while i < |chain|
      invariant 0 <= i <= |chain|
      invariant vsize + Fees.TotalVsize(chain[i..]) == Fees.TotalVsize(chain)
      invariant diff == vsize * step
    {
      TotalVsizeStep(chain, i);
      ghost var before := vsize;
      diff := diff + chain[i].tx.vsize * step;
      vsize := vsize + chain[i].tx.vsize;
      assert vsize * step == before * step + chain[i].tx.vsize * step;
      i := i + 1;
    }
  }

  lemma TotalVsizeStep(chain: seq<CoordinatedTx>, i: nat)
    requires i < |chain|
    ensures Fees.TotalVsize(chain[i..]) == chain[i].tx.vsize + Fees.TotalVsize(chain[i + 1..])
    ensures Fees.TotalVsize(chain[|chain|..]) == 0
  {
    assert chain[i..][1..] == chain[i + 1..];
  }

  method SumOf(xs: seq<nat>) returns (total: nat)
    ensures total == Fees.Sum(xs)
  {
    total := 0;
    var i := 0;
    assert xs[0..] == xs;
    while i < |xs|
      invariant 0 <= i <= |xs|
      invariant total + Fees.Sum(xs[i..]) == Fees.Sum(xs)
    {
      assert xs[i..][1..] == xs[i + 1..];
      total := total + xs[i];
      i := i + 1;
    }
  }

  method ComputeSpeedupFee(cfg: Config, parentVsizes: seq<nat>, childVsize: nat, bump: real, rate: nat, isRbf: bool,
                           chainDiff: nat) returns (fee: nat, capped: bool)
    ensures (fee, capped) == Fees.ComputeSpeedupFee(cfg, Fees.Sum(parentVsizes), childVsize, bump, rate, isRbf, chainDiff)
  {
    var parents := SumOf(parentVsizes);
    var total := SaturatingSub((parents + childVsize) * rate, parents * Fees.MIN_RELAY_FEE_RATE);
    if isRbf && total < childVsize * rate * 2 {
      total := childVsize * rate * 2;
    }
    total := total + chainDiff;
    assert total == Fees.BaseFee(parents, childVsize, rate, isRbf, chainDiff);
    fee := Fees.Bumped(total, bump);
    var cap := Fees.FeeCap(cfg, parents, childVsize);
    capped := fee > cap;
    if capped {
      fee := cap;
    }
  }

  method GetNetworkFeeRate(cfg: Config, estimate: Option<nat>) returns (rate: nat, news: Option<News>)
    ensures (rate, news) == Fees.NetworkFeeRate(cfg, estimate)
    ensures cfg.Valid() ==> cfg.minSafeFeeRate <= rate <= cfg.maxFeerate
  {
    rate := cfg.minSafeFeeRate;
    news := None;
    if estimate.Some? && estimate.value >= cfg.minSafeFeeRate {
      rate := estimate.value;
    }
    if rate > cfg.maxFeerate {
      news := Some(EstimateFeerateTooHigh(rate, cfg.maxFeerate));
      rate := cfg.maxFeerate;
    }
  }

  // ---------------------------------------------------------------- funding

  class FundingManager {
    const storage: Store

    constructor (storage: Store)
      ensures this.storage == storage
    {
      this.storage := storage;
    }

    /** Pass 1 walks the speedups backwards, pass 2 the funding queue forwards. */
    method GetFunding() returns (chosen: Option<(Utxo, bool)>)
      requires storage.Valid()
      modifies storage
      ensures storage.Valid() && (storage.Value(), chosen) == Funding.GetFunding(old(storage.Value()))
    {
      var all := storage.GetSpeedupsOrdered();
      var n := |all|;
      while n > 0
        invariant 0 <= n <= |all| && storage.Valid() && storage.Value() == old(storage.Value())
        invariant Funding.LatestOpenTip(all, n) == Funding.LatestOpenTip(all, |all|)
      {
        if Funding.IsOpenTip(all[n - 1], all) {
          var utxo := all[n - 1].ChangeUtxo();
          storage.SetSpent(utxo.op, true);
          return Some((utxo, true));
        }
        n := n - 1;
      }
      var op := FirstOpen(false);
      if op.None? {
        return None;
      }
      var record := storage.funding[op.value];
      storage.SetSpent(record.utxo.op, true);
      return Some((record.utxo, record.fromSpeedup));
    }

    method FirstOpen(userOnly: bool) returns (op: Option<OutPoint>)
      ensures op == Funding.FirstOpenRecord(storage.Value(), storage.queue, userOnly)
    {
      hide Funding.FirstOpenRecord;
      var queue := storage.queue;
      var i := 0;
      assert queue[0..] == queue;
      while i < |queue|
        invariant 0 <= i <= |queue|
        invariant Funding.FirstOpenRecord(storage.Value(), queue[i..], userOnly)
                  == Funding.FirstOpenRecord(storage.Value(), queue, userOnly)
      {
        FirstOpenStep(storage.Value(), queue, i, userOnly);
        var at := queue[i];
        if at in storage.funding && !storage.funding[at].spent && !(userOnly && storage.funding[at].fromSpeedup) {
          return Some(at);
        }
        i := i + 1;
      }
      FirstOpenEnd(storage.Value(), queue, userOnly);
      return None;
    }

    method GetCombineFunding() returns (extra: Option<Utxo>)
      requires storage.Valid()
      modifies storage
      ensures storage.Valid() && (storage.Value(), extra) == Funding.GetCombineFunding(old(storage.Value()))
    {
      var op := FirstOpen(true);
      if op.None? {
        return None;
      }
      var utxo := storage.funding[op.value].utxo;
      storage.SetSpent(utxo.op, true);
      return Some(utxo);
    }

    method ReleaseMarks(us: seq<Utxo>)
      requires storage.Valid()
      modifies storage
      ensures storage.Valid() && storage.Value() == Funding.ReleaseMarks(old(storage.Value()), us)
    {
      var i := 0;
      assert us[0..] == us;
      while i < |us|
        invariant 0 <= i <= |us| && storage.Valid()
        invariant Funding.ReleaseMarks(storage.Value(), us[i..]) == Funding.ReleaseMarks(old(storage.Value()), us)
      {
        assert us[i..][1..] == us[i + 1..];
        storage.SetSpent(us[i].op, false);
        i := i + 1;
      }
    }
  }

  lemma FirstOpenStep(s: States.State, queue: seq<OutPoint>, i: nat, userOnly: bool)
    requires i < |queue|
    ensures Funding.FirstOpenRecord(s, queue[i..], userOnly)
            == if Funding.IsOpenRecord(s, queue[i], userOnly) then Some(queue[i])
               else Funding.FirstOpenRecord(s, queue[i + 1..], userOnly)
  {
    assert queue[i..][1..] == queue[i + 1..];
  }

  lemma FirstOpenEnd(s: States.State, queue: seq<OutPoint>, userOnly: bool)
    ensures Funding.FirstOpenRecord(s, queue[|queue|..], userOnly).None?
  {}
}

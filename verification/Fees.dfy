/** Fee arithmetic (src/core/fee.rs). Integers are unbounded and multipliers exact. */
module Fees {
  import opened Types
  import opened Oracles

  const MIN_RELAY_FEE_RATE: nat := 1

  function Sum(xs: seq<nat>): nat {
    if xs == [] then 0 else xs[0] + Sum(xs[1..])
  }

  function Max(a: nat, b: nat): nat {
    if a >= b then a else b
  }

  /** Smallest integer not below `x`. */
  function Ceil(x: real): int {
    -((-x).Floor)
  }

  function CheckedDiv(a: nat, b: nat): nat {
    if b == 0 then 0 else a / b
  }

  function ComputeFeeForTx(tx: Transaction, rate: nat): FeeInfo {
    FeeInfo(tx.vsize * rate, rate, rate, tx.weight)
  }

  /** Parents are credited at the relay floor; both rates are floor divisions. */
  function FeeInfoForPaidSpeedup(tx: Transaction, feePaid: nat, parentVbytes: nat): FeeInfo {
    FeeInfo(feePaid,
            CheckedDiv(feePaid, tx.vsize),
            CheckedDiv(parentVbytes * MIN_RELAY_FEE_RATE + feePaid, parentVbytes + tx.vsize),
            tx.weight)
  }

  function NetworkFeeRate(cfg: Config, estimate: Option<nat>): (nat, Option<News>) {
    var rate := if estimate.Some? && estimate.value >= cfg.minSafeFeeRate then estimate.value else cfg.minSafeFeeRate;
    if rate > cfg.maxFeerate then (cfg.maxFeerate, Some(EstimateFeerateTooHigh(rate, cfg.maxFeerate))) else (rate, None)
  }

  function BoostFeeRate(networkRate: nat, predecessorRate: nat): nat {
    Max(networkRate, predecessorRate + 1)
  }

  function TotalVsize(txs: seq<CoordinatedTx>): nat {
    if txs == [] then 0 else txs[0].tx.vsize + TotalVsize(txs[1..])
  }

  /** Lifting the whole unconfirmed chain from its last member's package rate to `rate`. */
  function ChainFeeDiff(rate: nat, chain: seq<CoordinatedTx>): nat {
    if chain == [] then 0
    else TotalVsize(chain) * SaturatingSub(rate, chain[|chain| - 1].feeInfo.packageFeeRate)
  }

  /** Fee before the multiplier and the cap: the package shortfall, the RBF floor, the chain lift. */
  function BaseFee(parentVbytes: nat, childVsize: nat, rate: nat, isRbf: bool, chainDiff: nat): nat {
    var package := SaturatingSub((parentVbytes + childVsize) * rate, parentVbytes * MIN_RELAY_FEE_RATE);
    (if isRbf then Max(package, childVsize * rate * 2) else package) + chainDiff
  }

  function Bumped(fee: nat, bump: real): nat {
    var c := Ceil(fee as real * bump);
    if c >= 0 then c else 0
  }

  function FeeCap(cfg: Config, parentVbytes: nat, childVsize: nat): nat {
    SaturatingSub(cfg.maxFeerate * (parentVbytes + childVsize), parentVbytes * MIN_RELAY_FEE_RATE)
  }

  function ComputeSpeedupFee(cfg: Config, parentVbytes: nat, childVsize: nat, bump: real, rate: nat, isRbf: bool,
                             chainDiff: nat): (nat, bool)
  {
    var fee := Bumped(BaseFee(parentVbytes, childVsize, rate, isRbf, chainDiff), bump);
    var cap := FeeCap(cfg, parentVbytes, childVsize);
    if fee > cap then (cap, true) else (fee, false)
  }
}

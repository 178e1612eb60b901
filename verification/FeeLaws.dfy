/** What the fee formulas add up to (src/core/fee.rs:42-172): escalation, the cap, and the replacement rules
    3 and 4 in the "Implementation Details" section of BIP 125. */
module FeeLaws {
  import opened Types
  import opened Oracles
  import opened Fees
  import opened Engines

  // ---------------------------------------------------------------- pieces

  lemma CeilBounds(x: real)
    ensures x <= Ceil(x) as real < x + 1.0
  {}

  /** A multiplier of at least one never lowers a fee. */
  lemma BumpRaises(fee: nat, bump: real)
    requires bump >= 1.0
    ensures Bumped(fee, bump) >= fee
  {
    assert fee as real * bump >= fee as real * 1.0;
    CeilBounds(fee as real * bump);
  }

  lemma MulMono(a: nat, b: nat, c: nat)
    requires a <= b
    ensures a * c <= b * c
  {}

  lemma DivBounds(a: nat, b: nat)
    requires 0 < b
    ensures (a / b) * b <= a < (a / b + 1) * b
  {}

  lemma DivAtLeast(a: nat, b: nat, q: nat)
    requires 0 < b && q * b <= a
    ensures a / b >= q
  {
    DivBounds(a, b);
    if a / b + 1 <= q {
      MulMono(a / b + 1, q, b);
    }
  }

  lemma DivAtMost(a: nat, b: nat, q: nat)
    requires 0 < b && a <= q * b
    ensures a / b <= q
  {
    DivBounds(a, b);
    if q + 1 <= a / b {
      MulMono(q + 1, a / b, b);
    }
  }

  lemma DivBelow(a: nat, b: nat, q: nat)
    requires 0 < b && a / b < q
    ensures a < q * b
  {
    DivBounds(a, b);
    MulMono(a / b + 1, q, b);
  }

  /** The package needs at least what its parents already paid, so the shortfall does not saturate. */
  lemma PackageShortfall(parents: nat, child: nat, rate: nat)
    requires rate >= 1
    ensures (parents + child) * rate >= parents
    ensures SaturatingSub((parents + child) * rate, parents * MIN_RELAY_FEE_RATE) == (parents + child) * rate - parents
  {
    MulMono(1, rate, parents + child);
  }

  lemma BaseCovers(parents: nat, child: nat, rate: nat, isRbf: bool, diff: nat)
    requires rate >= 1
    ensures (parents + child) * rate >= parents
    ensures BaseFee(parents, child, rate, isRbf, diff) >= (parents + child) * rate - parents + diff
  {
    PackageShortfall(parents, child, rate);
  }

  // ---------------------------------------------------------------- stored rates

  /** The package rate a speedup's own fee amounts to. */
  function PaidRate(r: CoordinatedTx): nat
    requires r.kind.Speedup?
  {
    var parents := Sum(r.kind.speedup.context.parentVsizes);
    CheckedDiv(parents + r.feeInfo.fee, parents + r.tx.vsize)
  }

  /** Every stored speedup: its rate is the one it paid, unless a capped replacement marked it at the cap. */
  predicate FeeOk(cfg: Config, r: CoordinatedTx) {
    r.kind.Speedup? ==>
      && 0 < r.tx.vsize
      && (r.feeInfo.packageFeeRate == PaidRate(r) || r.feeInfo.packageFeeRate == cfg.maxFeerate)
      && (cfg.baseFeeMultiplier >= 1.0 ==> r.kind.speedup.context.bumpFeeUsed >= 1.0)
  }

  lemma NewSpeedupPriced(cfg: Config, x: BuildResult, kind: SpeedupKind, height: BlockHeight)
    requires cfg.baseFeeMultiplier >= 1.0 ==> kind.context.bumpFeeUsed >= 1.0
    ensures FeeOk(cfg, NewSpeedup(x, kind.context.parentVsizes, kind, height))
    ensures NewSpeedup(x, kind.context.parentVsizes, kind, height).feeInfo.packageFeeRate
            == PaidRate(NewSpeedup(x, kind.context.parentVsizes, kind, height))
  {}

  /** The estimate, not below the safe minimum and not above the cap. */
  function NetworkRate(cfg: Config, estimate: Option<nat>): nat {
    var wanted := match estimate case Some(rate) => Max(rate, cfg.minSafeFeeRate) case None => cfg.minSafeFeeRate;
    if wanted > cfg.maxFeerate then cfg.maxFeerate else wanted
  }

  lemma NetworkRateIs(cfg: Config, estimate: Option<nat>)
    ensures NetworkFeeRate(cfg, estimate).0 == NetworkRate(cfg, estimate)
  {}

  // ---------------------------------------------------------------- one fee

  /** The fee is the one the formula gives for a size that covers the transaction actually built. */
  predicate PaysForSize(cfg: Config, q: BuildRequest, x: BuildResult) {
    && x.tx.vsize <= x.estimate <= MAX_SPEEDUP_VSIZE
    && (x.fee, x.capped)
       == ComputeSpeedupFee(cfg, Sum(q.parentVsizes), x.estimate, q.bump, q.feeRate, q.isRbf, q.chainDiff)
  }

  function StoredRate(q: BuildRequest, x: BuildResult): nat {
    FeeInfoForPaidSpeedup(x.tx, x.fee, Sum(q.parentVsizes)).packageFeeRate
  }

  /** What an uncapped fee covers, and what a capped one is. */
  lemma FeeCovers(cfg: Config, q: BuildRequest, x: BuildResult)
    requires cfg.Valid() && PaysForSize(cfg, q, x) && q.feeRate >= 1
    ensures var parents := Sum(q.parentVsizes);
      && (!x.capped && q.bump >= 1.0 ==> parents + x.fee >= (parents + x.estimate) * q.feeRate + q.chainDiff)
      && (x.capped ==> parents + x.fee == (parents + x.estimate) * cfg.maxFeerate)
  {
    hide ComputeSpeedupFee, BaseFee, Bumped, FeeCap, Sum;
    FeeCases(cfg, q, x);
    var parents := Sum(q.parentVsizes);
    BaseCovers(parents, x.estimate, q.feeRate, q.isRbf, q.chainDiff);
    CapIs(cfg, parents, x.estimate);
    if q.bump >= 1.0 {
      BumpRaises(BaseFee(parents, x.estimate, q.feeRate, q.isRbf, q.chainDiff), q.bump);
    }
  }

  lemma FeeCases(cfg: Config, q: BuildRequest, x: BuildResult)
    requires PaysForSize(cfg, q, x)
    ensures var parents := Sum(q.parentVsizes);
      && (!x.capped ==> x.fee == Bumped(BaseFee(parents, x.estimate, q.feeRate, q.isRbf, q.chainDiff), q.bump))
      && (x.capped ==> x.fee == FeeCap(cfg, parents, x.estimate))
      && x.fee <= FeeCap(cfg, parents, x.estimate)
  {
    hide BaseFee, Bumped, FeeCap, Sum;
  }

  /** `fee` is the whole amount next above what a child of `vsize` owes, or, `capped`, what the cap leaves for it. It owes,
      bumped: the package rate on every vbyte less what the parents paid at 1, twice the rate on its own for a replacement when
      that is more, and the lift of the chain before it. */
  predicate IsFee(cfg: Config, parents: nat, vsize: nat, rate: nat, isRbf: bool, lift: nat, bump: real, fee: nat,
                  capped: bool)
  {
    var shortfall := (parents + vsize) * rate - parents;
    var base := (if isRbf && 2 * vsize * rate > shortfall then 2 * vsize * rate else shortfall) + lift;
    var owed := base as real * bump;
    && parents + fee <= cfg.maxFeerate * (parents + vsize)
    && fee as real < owed + 1.0
    && (capped <==> fee as real < owed)
    && (capped ==> parents + fee == cfg.maxFeerate * (parents + vsize))
  }

  lemma BaseIs(parents: nat, vsize: nat, rate: nat, isRbf: bool, lift: nat)
    requires rate >= 1
    ensures var shortfall := (parents + vsize) * rate - parents;
            BaseFee(parents, vsize, rate, isRbf, lift)
            == (if isRbf && 2 * vsize * rate > shortfall then 2 * vsize * rate else shortfall) + lift
  {
    PackageShortfall(parents, vsize, rate);
    assert vsize * rate * 2 == 2 * vsize * rate;
  }

  lemma BumpedIs(fee: nat, bump: real)
    requires bump >= 0.0
    ensures fee as real * bump <= Bumped(fee, bump) as real < fee as real * bump + 1.0
  {
    CeilBounds(fee as real * bump);
    assert fee as real * bump >= 0.0;
  }

  /** A built speedup pays exactly the fee for the size it was estimated at. */
  lemma FeeIs(cfg: Config, q: BuildRequest, x: BuildResult)
    requires cfg.Valid() && PaysForSize(cfg, q, x) && q.feeRate >= 1 && q.bump >= 0.0
    ensures IsFee(cfg, Sum(q.parentVsizes), x.estimate, q.feeRate, q.isRbf, q.chainDiff, q.bump, x.fee, x.capped)
  {
    hide BaseFee, Bumped, FeeCap, Sum;
    var parents := Sum(q.parentVsizes);
    var base := BaseFee(parents, x.estimate, q.feeRate, q.isRbf, q.chainDiff);
    BaseIs(parents, x.estimate, q.feeRate, q.isRbf, q.chainDiff);
    BumpedIs(base, q.bump);
    CapIs(cfg, parents, x.estimate);
    FeeIsLess(cfg, q, x);
    assert (parents + x.estimate) * cfg.maxFeerate == cfg.maxFeerate * (parents + x.estimate);
  }

  lemma FeeIsLess(cfg: Config, q: BuildRequest, x: BuildResult)
    requires PaysForSize(cfg, q, x)
    ensures var parents := Sum(q.parentVsizes);
            var bumped, cap := Bumped(BaseFee(parents, x.estimate, q.feeRate, q.isRbf, q.chainDiff), q.bump),
                               FeeCap(cfg, parents, x.estimate);
            x.fee == (if bumped > cap then cap else bumped) && x.capped == (bumped > cap)
  {
    hide BaseFee, Bumped, FeeCap, Sum;
  }

  lemma CapIs(cfg: Config, parents: nat, estimate: nat)
    requires cfg.Valid()
    ensures parents + FeeCap(cfg, parents, estimate) == (parents + estimate) * cfg.maxFeerate
  {
    PackageShortfall(parents, estimate, cfg.maxFeerate);
    assert cfg.maxFeerate * (parents + estimate) == (parents + estimate) * cfg.maxFeerate;
  }

  lemma PackageRate(parents: nat, fee: nat, vsize: nat, estimate: nat, rate: nat)
    requires 0 < vsize <= estimate && parents + fee >= (parents + estimate) * rate
    ensures (parents + fee) / (parents + vsize) >= rate
  {
    MulMono(parents + vsize, parents + estimate, rate);
    DivAtLeast(parents + fee, parents + vsize, rate);
  }

  /** The stored rate reaches the asked rate, or the cap when the fee was capped. */
  lemma StoredRateReaches(cfg: Config, q: BuildRequest, x: BuildResult)
    requires cfg.Valid() && PaysForSize(cfg, q, x) && q.bump >= 1.0 && q.feeRate >= 1
    ensures StoredRate(q, x) >= if x.capped then cfg.maxFeerate else q.feeRate
  {
    FeeCovers(cfg, q, x);
    hide ComputeSpeedupFee;
    var parents := Sum(q.parentVsizes);
    PackageRate(parents, x.fee, x.tx.vsize, x.estimate, if x.capped then cfg.maxFeerate else q.feeRate);
  }

  /** When the final size is the estimated one the cap is never exceeded, and a capped fee meets it exactly. */
  lemma CapIsExact(cfg: Config, q: BuildRequest, x: BuildResult)
    requires cfg.Valid() && PaysForSize(cfg, q, x) && x.tx.vsize == x.estimate
    ensures StoredRate(q, x) <= cfg.maxFeerate
    ensures x.capped ==> StoredRate(q, x) == cfg.maxFeerate
  {
    hide ComputeSpeedupFee, BaseFee, Bumped, FeeCap, Sum;
    var parents := Sum(q.parentVsizes);
    FeeCases(cfg, q, x);
    CapIs(cfg, parents, x.estimate);
    DivAtMost(parents + x.fee, parents + x.tx.vsize, cfg.maxFeerate);
    if x.capped {
      DivAtLeast(parents + x.fee, parents + x.tx.vsize, cfg.maxFeerate);
    }
  }

  lemma DivIs(a: nat, b: nat, q: nat)
    requires 0 < b && q * b <= a
    ensures a / b == q <==> a < (q + 1) * b
  {
    DivAtLeast(a, b, q);
    DivBounds(a, b);
    if a < (q + 1) * b {
      if a / b >= q + 1 {
        MulMono(q + 1, a / b, b);
      }
    }
  }

  /** A transaction that comes out smaller than it was sized for overshoots the cap: a capped fee keeps the package at
      the cap exactly when the saved bytes, priced at the cap, are worth less than one sat per vbyte of the package. */
  lemma CapHoldsExactlyWhen(cfg: Config, q: BuildRequest, x: BuildResult)
    requires cfg.Valid() && PaysForSize(cfg, q, x) && x.capped
    ensures StoredRate(q, x) >= cfg.maxFeerate
    ensures StoredRate(q, x) == cfg.maxFeerate
            <==> (x.estimate - x.tx.vsize) * cfg.maxFeerate < Sum(q.parentVsizes) + x.tx.vsize
  {
    hide ComputeSpeedupFee, BaseFee, Bumped, FeeCap, Sum;
    var parents := Sum(q.parentVsizes);
    FeeCases(cfg, q, x);
    CapIs(cfg, parents, x.estimate);
    SavedBytes(parents + x.tx.vsize, x.estimate - x.tx.vsize, cfg.maxFeerate);
    assert parents + x.estimate == (parents + x.tx.vsize) + (x.estimate - x.tx.vsize);
  }

  lemma SavedBytes(package: nat, saved: nat, max: nat)
    requires 0 < package
    ensures (package + saved) * max / package >= max
    ensures (package + saved) * max / package == max <==> saved * max < package
  {
    var paid := (package + saved) * max;
    assert paid == max * package + saved * max;
    assert (max + 1) * package == max * package + package;
    DivIs(paid, package, max);
    DivAtLeast(paid, package, max);
  }

  /** Lifting a chain that ends in `tip` to a rate above its stored rate costs at least one sat per vbyte of it. */
  lemma {:induction false} TotalVsizeHasLast(chain: seq<CoordinatedTx>)
    requires chain != []
    ensures TotalVsize(chain) >= chain[|chain| - 1].tx.vsize
  {
    if |chain| > 1 {
      TotalVsizeHasLast(chain[1..]);
      assert chain[1..][|chain[1..]| - 1] == chain[|chain| - 1];
    }
  }

  lemma ChainDiffLifts(rate: nat, chain: seq<CoordinatedTx>)
    requires chain != [] && rate > chain[|chain| - 1].feeInfo.packageFeeRate
    ensures ChainFeeDiff(rate, chain) >= chain[|chain| - 1].tx.vsize
  {
    var tip := chain[|chain| - 1];
    var step := rate - tip.feeInfo.packageFeeRate;
    TotalVsizeHasLast(chain);
    MulMono(tip.tx.vsize, TotalVsize(chain), step);
    MulMono(1, step, tip.tx.vsize);
  }

  // ---------------------------------------------------------------- replacement

  /** `x` is an uncapped answer to the request `q` that replaces `tip`, the last of the live `chain`. */
  predicate Replaces(cfg: Config, tip: CoordinatedTx, chain: seq<CoordinatedTx>, q: BuildRequest, x: BuildResult) {
    && PaysForSize(cfg, q, x) && !x.capped && q.isRbf && q.bump >= 1.0
    && tip.kind.Speedup? && q.parentVsizes == tip.kind.speedup.context.parentVsizes
    && chain != [] && chain[|chain| - 1] == tip
    && q.feeRate > tip.feeInfo.packageFeeRate && q.chainDiff == ChainFeeDiff(q.feeRate, chain)
  }

  /** The tip's stored rate is the one it paid. */
  predicate PricedTip(tip: CoordinatedTx) {
    tip.kind.Speedup? && 0 < tip.tx.vsize && tip.feeInfo.packageFeeRate == PaidRate(tip)
  }

  /** The least fee an uncapped replacement of `tip` can carry at this rate and size. */
  function ReplacementFloor(tip: CoordinatedTx, rate: nat, estimate: nat): nat
    requires tip.kind.Speedup?
  {
    BaseFee(Sum(tip.kind.speedup.context.parentVsizes), estimate, rate, true,
            tip.tx.vsize * SaturatingSub(rate, tip.feeInfo.packageFeeRate))
  }

  lemma UncappedFee(cfg: Config, q: BuildRequest, x: BuildResult)
    requires PaysForSize(cfg, q, x) && !x.capped
    ensures x.fee == Bumped(BaseFee(Sum(q.parentVsizes), x.estimate, q.feeRate, q.isRbf, q.chainDiff), q.bump)
  {
    hide BaseFee, Bumped, FeeCap, Sum;
  }

  lemma BaseGrows(parents: nat, child: nat, rate: nat, isRbf: bool, less: nat, more: nat)
    requires less <= more
    ensures BaseFee(parents, child, rate, isRbf, less) <= BaseFee(parents, child, rate, isRbf, more)
  {}

  lemma FloorHolds(cfg: Config, tip: CoordinatedTx, chain: seq<CoordinatedTx>, q: BuildRequest, x: BuildResult)
    requires Replaces(cfg, tip, chain, q, x)
    ensures x.fee >= ReplacementFloor(tip, q.feeRate, x.estimate)
  {
    hide ComputeSpeedupFee, BaseFee, Bumped, Sum, TotalVsize;
    var step := q.feeRate - tip.feeInfo.packageFeeRate;
    UncappedFee(cfg, q, x);
    TotalVsizeHasLast(chain);
    MulMono(tip.tx.vsize, TotalVsize(chain), step);
    BaseGrows(Sum(q.parentVsizes), x.estimate, q.feeRate, true, tip.tx.vsize * step, q.chainDiff);
    BumpRaises(BaseFee(Sum(q.parentVsizes), x.estimate, q.feeRate, true, q.chainDiff), q.bump);
  }

  function FloorRequest(tip: CoordinatedTx, rate: nat): BuildRequest
    requires tip.kind.Speedup?
  {
    BuildRequest(tip.kind.speedup.context.parentVsizes, true, 1.0, rate, ChainFeeDiff(rate, [tip]))
  }

  function FloorResult(tip: CoordinatedTx, rate: nat, estimate: VSize): BuildResult
    requires tip.kind.Speedup?
  {
    BuildResult(0, Transaction([], [0], estimate, 4 * estimate), ReplacementFloor(tip, rate, estimate), false, [], estimate)
  }

  /** The floor is met by a replacement of a lone tip with a multiplier of one, unless the cap lies below it. */
  lemma FloorIsMet(cfg: Config, tip: CoordinatedTx, rate: nat, estimate: VSize)
    requires tip.kind.Speedup? && rate > tip.feeInfo.packageFeeRate
    requires ReplacementFloor(tip, rate, estimate) <= FeeCap(cfg, Sum(tip.kind.speedup.context.parentVsizes), estimate)
    ensures Replaces(cfg, tip, [tip], FloorRequest(tip, rate), FloorResult(tip, rate, estimate))
  {
    var floor := ReplacementFloor(tip, rate, estimate);
    assert [tip][1..] == [];
    assert TotalVsize([tip]) == tip.tx.vsize;
    assert ChainFeeDiff(rate, [tip]) == tip.tx.vsize * SaturatingSub(rate, tip.feeInfo.packageFeeRate);
    assert Bumped(floor, 1.0) == floor by {
      assert floor as real * 1.0 == floor as real;
      CeilBounds(floor as real);
    }
    hide BaseFee, Bumped, FeeCap, Sum, TotalVsize;
  }

  /** The size threshold for uncapped replacements, in tip, rate and estimate: all of them pay the predecessor's fee and
      one sat more per vbyte of their own if and only if the floor does for a transaction that fills its estimate. */
  lemma SizeThreshold(cfg: Config, tip: CoordinatedTx, rate: nat, estimate: VSize)
    requires tip.kind.Speedup? && rate > tip.feeInfo.packageFeeRate
    requires ReplacementFloor(tip, rate, estimate) <= FeeCap(cfg, Sum(tip.kind.speedup.context.parentVsizes), estimate)
    ensures (forall chain, q, x :: Replaces(cfg, tip, chain, q, x) && q.feeRate == rate && x.estimate == estimate ==>
               x.fee >= tip.feeInfo.fee + x.tx.vsize * MIN_RELAY_FEE_RATE)
            <==> ReplacementFloor(tip, rate, estimate) >= tip.feeInfo.fee + estimate
    ensures (forall chain, q, x :: Replaces(cfg, tip, chain, q, x) && q.feeRate == rate && x.estimate == estimate ==>
               x.fee > tip.feeInfo.fee)
            <==> ReplacementFloor(tip, rate, estimate) > tip.feeInfo.fee
  {
    FloorIsMet(cfg, tip, rate, estimate);
    assert PaysForSize(cfg, FloorRequest(tip, rate), FloorResult(tip, rate, estimate));
    hide ReplacementFloor, Replaces, FloorRequest, PaysForSize, ComputeSpeedupFee, FeeCap, Sum;
    var w := FloorResult(tip, rate, estimate);
    assert FloorRequest(tip, rate).feeRate == rate by { FloorRate(tip, rate); }
    forall chain, q, x | Replaces(cfg, tip, chain, q, x) && q.feeRate == rate && x.estimate == estimate
      ensures x.fee >= ReplacementFloor(tip, rate, estimate) && x.tx.vsize <= estimate
    {
      FloorHolds(cfg, tip, chain, q, x);
      ReplacementFits(cfg, tip, chain, q, x);
    }
  }

  lemma FloorRate(tip: CoordinatedTx, rate: nat)
    requires tip.kind.Speedup?
    ensures FloorRequest(tip, rate).feeRate == rate
  {}

  lemma ReplacementFits(cfg: Config, tip: CoordinatedTx, chain: seq<CoordinatedTx>, q: BuildRequest, x: BuildResult)
    requires Replaces(cfg, tip, chain, q, x)
    ensures x.tx.vsize <= x.estimate
  {}

  /** Rules 3 and 4 of BIP 125: an uncapped replacement, sized for at least its predecessor, pays the
      predecessor's whole fee and one sat more for every vbyte of its own. */
  lemma ReplacementPays(cfg: Config, tip: CoordinatedTx, chain: seq<CoordinatedTx>, q: BuildRequest, x: BuildResult)
    requires cfg.Valid() && Replaces(cfg, tip, chain, q, x) && PricedTip(tip) && x.estimate >= tip.tx.vsize
    ensures x.fee > tip.feeInfo.fee + x.tx.vsize * MIN_RELAY_FEE_RATE
  {
    FeeCovers(cfg, q, x);
    hide ComputeSpeedupFee;
    ChainDiffLifts(q.feeRate, chain);
    hide ChainFeeDiff;
    ReplacementSum(Sum(q.parentVsizes), tip.feeInfo.fee, tip.tx.vsize, x.fee, x.tx.vsize, x.estimate, q.feeRate);
  }

  /** Rule 3 for a smaller uncapped replacement: the bytes saved, priced at the new rate, may cost as much as lifting the
      tip to that rate. */
  lemma SmallerReplacementPays(cfg: Config, tip: CoordinatedTx, chain: seq<CoordinatedTx>, q: BuildRequest, x: BuildResult)
    requires cfg.Valid() && Replaces(cfg, tip, chain, q, x) && PricedTip(tip) && x.estimate <= tip.tx.vsize
    requires (tip.tx.vsize - x.estimate) * q.feeRate <= tip.tx.vsize * (q.feeRate - tip.feeInfo.packageFeeRate)
    ensures x.fee > tip.feeInfo.fee
  {
    hide ComputeSpeedupFee, BaseFee, Sum, ChainFeeDiff;
    var parents, v, rate, pkg := Sum(q.parentVsizes), tip.tx.vsize, q.feeRate, tip.feeInfo.packageFeeRate;
    FloorHolds(cfg, tip, chain, q, x);
    BaseCovers(parents, x.estimate, rate, true, v * (rate - pkg));
    assert (parents + tip.feeInfo.fee) / (parents + v) < rate;
    SmallerSum(parents, tip.feeInfo.fee, v, x.fee, x.estimate, rate, v * (rate - pkg));
  }

  lemma SmallerSum(parents: nat, oldFee: nat, oldVsize: nat, fee: nat, estimate: nat, rate: nat, lift: nat)
    requires 0 < oldVsize && estimate <= oldVsize && (parents + oldFee) / (parents + oldVsize) < rate
    requires (oldVsize - estimate) * rate <= lift && parents + fee >= (parents + estimate) * rate + lift
    ensures fee > oldFee
  {
    DivBelow(parents + oldFee, parents + oldVsize, rate);
    var saved := oldVsize - estimate;
    assert (parents + oldVsize) * rate == (parents + estimate) * rate + saved * rate;
  }

  /** A capped replacement: exactly when it meets rules 3 and 4, and rule 3 always when sized for its predecessor. */
  lemma CappedReplacement(cfg: Config, tip: CoordinatedTx, q: BuildRequest, x: BuildResult)
    requires cfg.Valid() && PaysForSize(cfg, q, x) && x.capped && q.feeRate >= 1
    requires PricedTip(tip) && q.parentVsizes == tip.kind.speedup.context.parentVsizes
    ensures var parents := Sum(q.parentVsizes);
      && (x.fee > tip.feeInfo.fee <==> (parents + x.estimate) * cfg.maxFeerate > parents + tip.feeInfo.fee)
      && (x.fee >= tip.feeInfo.fee + x.tx.vsize * MIN_RELAY_FEE_RATE
          <==> (parents + x.estimate) * cfg.maxFeerate >= parents + tip.feeInfo.fee + x.tx.vsize)
    ensures x.estimate >= tip.tx.vsize && tip.feeInfo.packageFeeRate < cfg.maxFeerate ==> x.fee > tip.feeInfo.fee
  {
    hide ComputeSpeedupFee, Sum;
    FeeCovers(cfg, q, x);
    var parents := Sum(q.parentVsizes);
    CappedSum(parents, tip.feeInfo.fee, tip.tx.vsize, x.fee, x.tx.vsize, (parents + x.estimate) * cfg.maxFeerate);
    if x.estimate >= tip.tx.vsize && tip.feeInfo.packageFeeRate < cfg.maxFeerate {
      CappedCovers(parents, tip.feeInfo.fee, tip.tx.vsize, x.estimate, cfg.maxFeerate);
    }
  }

  lemma CappedSum(parents: nat, oldFee: nat, oldVsize: nat, fee: nat, vsize: nat, budget: nat)
    requires parents + fee == budget
    ensures fee > oldFee <==> budget > parents + oldFee
    ensures fee >= oldFee + vsize * MIN_RELAY_FEE_RATE <==> budget >= parents + oldFee + vsize
  {}

  lemma CappedCovers(parents: nat, oldFee: nat, oldVsize: nat, estimate: nat, max: nat)
    requires 0 < oldVsize <= estimate && (parents + oldFee) / (parents + oldVsize) < max
    ensures (parents + estimate) * max > parents + oldFee
  {
    DivBelow(parents + oldFee, parents + oldVsize, max);
    MulMono(parents + oldVsize, parents + estimate, max);
  }

  lemma ReplacementSum(parents: nat, oldFee: nat, oldVsize: nat, fee: nat, vsize: nat, estimate: nat, rate: nat)
    requires 0 < oldVsize <= estimate && vsize <= estimate
    requires (parents + oldFee) / (parents + oldVsize) < rate
    requires parents + fee >= (parents + estimate) * rate + oldVsize
    ensures fee > oldFee + vsize
  {
    DivBelow(parents + oldFee, parents + oldVsize, rate);
    var extra := estimate - oldVsize;
    assert (parents + estimate) * rate == (parents + oldVsize) * rate + extra * rate;
    MulMono(1, rate, extra);
  }
}

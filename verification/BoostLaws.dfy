/** Boosts over whole runs: they pay their way, strictly escalate, and stop at the cap. */
module BoostLaws {
  import opened Types
  import opened Oracles
  import Fees
  import opened States
  import opened Funding
  import opened Failures
  import opened Engines
  import opened FeeLaws
  import opened Invariants
  import opened Evolution
  import opened BuildLaws
  import opened CreationLaws
  import opened Runs
  import opened LifecycleLaws
  import opened Ticks

  // ---------------------------------------------------------------- stored fees over every run

  lemma PriceKept(cfg: Config, a: CoordinatedTx, b: CoordinatedTx)
    requires b.tx == a.tx && SamePrice(a, b) && FeeOk(cfg, a)
    ensures FeeOk(cfg, b)
  {}

  lemma MovePriced(cfg: Config, e: Event, a: CoordinatedTx, b: CoordinatedTx)
    requires EventMove(cfg, e, a, b) && FeeOk(cfg, a)
    ensures FeeOk(cfg, b)
  {
    if e.ReviewClientsEvent? || e.ReviewSpeedupsEvent? || e.DispatchClientsEvent? || e.DispatchSpeedupsEvent? {
      hide FeeOk, SamePrice;
      PriceKept(cfg, a, b);
    } else {
      hide FeeOk, Still;
      StillPriced(cfg, a, b);
    }
  }

  lemma NewPriced(s: State, cfg: Config, e: Event, t: Txid)
    requires Inv(s) && cfg.Valid() && Admissible(s, cfg, e) && FeesOk(cfg, s) && t !in s.txs && t in Step(s, cfg, e).txs
    ensures FeeOk(cfg, Step(s, cfg, e).txs[t])
  {
    NewRecords(s, cfg, e, t);
    hide Inv, BoostIfStale, CreateCpfpBatch, Register, FreshBuilder, ReviewActive, ReviewSpeedups, DispatchPending;
    hide DispatchPendingSpeedups, AddFunding, Cancel, FeesOk;
    match e
    case BoostEvent(b, estimate, skip, height) => BoostCreates(s, cfg, b, estimate, skip, height);
    case CreateCpfpEvent(b, estimate, height) => CpfpCreates(s, cfg, b, estimate, height);
    case _ =>
  }

  lemma StepKeepsFees(s: State, cfg: Config, e: Event)
    requires Inv(s) && cfg.Valid() && Admissible(s, cfg, e) && FeesOk(cfg, s)
    ensures FeesOk(cfg, Step(s, cfg, e))
  {
    hide Inv, Step, Admissible, FeeOk, EventMove;
    forall t | t in Step(s, cfg, e).txs ensures FeeOk(cfg, Step(s, cfg, e).txs[t]) {
      if t in s.txs {
        EventMoves(s, cfg, e, t);
        MovePriced(cfg, e, s.txs[t], Step(s, cfg, e).txs[t]);
      } else {
        NewPriced(s, cfg, e, t);
      }
    }
  }

  lemma {:induction false} RunKeepsFees(s: State, cfg: Config, es: seq<Event>)
    requires Inv(s) && cfg.Valid() && AdmissibleRun(s, cfg, es) && FeesOk(cfg, s)
    ensures FeesOk(cfg, Run(s, cfg, es))
    decreases |es|
  {
    hide Inv, Step, Admissible, FeesOk;
    if es != [] {
      StepKeepsInv(s, cfg, es[0]);
      StepKeepsFees(s, cfg, es[0]);
      RunKeepsFees(Step(s, cfg, es[0]), cfg, es[1..]);
    }
  }

  lemma ReachableFees(cfg: Config, s: State)
    requires cfg.Valid() && Reachable(cfg, s)
    ensures FeesOk(cfg, s)
  {
    assert FeesOk(cfg, EMPTY);
    hide Inv, AdmissibleRun, Run, FeesOk;
    var es :| AdmissibleRun(EMPTY, cfg, es) && Run(EMPTY, cfg, es) == s;
    EmptyInv();
    RunKeepsFees(EMPTY, cfg, es);
  }

  // ---------------------------------------------------------------- one boost

  /** The last live speedup of the chain is the tip, and the tip is below the cap. */
  lemma TipIsLast(cfg: Config, all: seq<CoordinatedTx>, height: BlockHeight)
    requires StaleTip(cfg, all, height).Some?
    ensures var live := LiveInMempool(all, |all|);
            live != [] && live[|live| - 1] == StaleTip(cfg, all, height).value
  {}

  lemma BoostAsks(cfg: Config, all: seq<CoordinatedTx>, tip: CoordinatedTx, rate: nat)
    requires tip.kind.Speedup?
    ensures var q := BoostRequest(cfg, all, tip, rate);
      && q.feeRate == Fees.BoostFeeRate(rate, tip.feeInfo.packageFeeRate) > tip.feeInfo.packageFeeRate
      && q.chainDiff == Fees.ChainFeeDiff(q.feeRate, LiveInMempool(all, |all|))
      && (q.isRbf ==> q.parentVsizes == tip.kind.speedup.context.parentVsizes)
      && q.bump == tip.kind.speedup.context.bumpFeeUsed * cfg.bumpFeePercentage
  {}

  lemma BumpAtLeastOne(cfg: Config, all: seq<CoordinatedTx>, tip: CoordinatedTx, rate: nat)
    requires cfg.Valid() && cfg.baseFeeMultiplier >= 1.0 && tip.kind.Speedup? && FeeOk(cfg, tip)
    ensures BoostRequest(cfg, all, tip, rate).bump >= 1.0
  {
    var bump := tip.kind.speedup.context.bumpFeeUsed;
    assert bump * cfg.bumpFeePercentage >= bump * 1.0;
  }

  /** What the store holds for the new boost. */
  lemma BoostStored(s: State, s': State, cfg: Config, tip: CoordinatedTx, r: CoordinatedTx, q: BuildRequest, capped: bool)
    requires r.kind.Speedup? && r.txid != tip.txid
    ensures var done := NoteCap(SaveSpeedup(s', r), cfg, tip, r, q, capped); r.txid in done.txs && done.txs[r.txid] == r
  {}

  /** What rules 3 and 4 of BIP 125 ask of the replacement `r` of `tip`. */
  predicate PaysMore(tip: CoordinatedTx, r: CoordinatedTx) {
    r.feeInfo.fee > tip.feeInfo.fee
  }

  predicate PaysRelay(tip: CoordinatedTx, r: CoordinatedTx) {
    r.feeInfo.fee >= tip.feeInfo.fee + r.tx.vsize * Fees.MIN_RELAY_FEE_RATE
  }

  /** When a replacement built for the size `x.estimate` pays, capped or not. */
  predicate ReplacementRules(cfg: Config, tip: CoordinatedTx, rate: nat, x: BuildResult, r: CoordinatedTx)
    requires tip.kind.Speedup?
  {
    var parents := Fees.Sum(tip.kind.speedup.context.parentVsizes);
    && (x.estimate >= tip.tx.vsize ==> PaysMore(tip, r))
    && (!x.capped && x.estimate >= tip.tx.vsize ==> PaysRelay(tip, r))
    && (!x.capped && x.estimate <= tip.tx.vsize
        && (tip.tx.vsize - x.estimate) * rate <= tip.tx.vsize * SaturatingSub(rate, tip.feeInfo.packageFeeRate) ==>
          PaysMore(tip, r))
    && (!x.capped ==> r.feeInfo.fee >= ReplacementFloor(tip, rate, x.estimate))
    && (x.capped ==>
          && (PaysMore(tip, r) <==> (parents + x.estimate) * cfg.maxFeerate > parents + tip.feeInfo.fee)
          && (PaysRelay(tip, r) <==> (parents + x.estimate) * cfg.maxFeerate >= parents + tip.feeInfo.fee + r.tx.vsize))
  }

  /** Rules 3 and 4 of BIP 125 for every replacement the coordinator builds in a reachable state. */
  lemma ReplacementPaysItsWay(s: State, cfg: Config, b: Builder, estimate: Option<nat>, height: BlockHeight)
    requires cfg.Valid() && cfg.baseFeeMultiplier >= 1.0 && Reachable(cfg, s) && FreshBuilder(s, b)
    requires StaleTip(cfg, SpeedupRecords(s), height).Some? && UseRbf(cfg, SpeedupRecords(s))
    ensures var tip := StaleTip(cfg, SpeedupRecords(s), height).value;
            var built := BoostBuild(s, cfg, b, estimate, tip).1;
            var s' := BoostIfStale(s, cfg, b, estimate, false, height);
            var rate := Fees.BoostFeeRate(Fees.NetworkFeeRate(cfg, estimate).0, tip.feeInfo.packageFeeRate);
            built.Some? ==>
              && built.value.txid in s'.txs
              && s'.txs[built.value.txid].Supersedes(tip.txid)
              && ReplacementRules(cfg, tip, rate, built.value, s'.txs[built.value.txid])
  {
    ReachableInv(cfg, s);
    ReachableFees(cfg, s);
    hide Inv, Reachable, FreshBuilder, StaleTip, Masked, SpeedupRecords, SameCore, Fees.NetworkFeeRate, Claim, Waiting;
    hide BoostBuild, NewRecord, BuiltInputs, SaveSpeedup, NoteCap, BoostRequest, PaysForSize, BoostIfStale, NewSpeedup;
    hide BoostKind, UseRbf, FeeOk, ReplacementRules, Fees.BoostFeeRate;
    var all := SpeedupRecords(s);
    var noted, tip, q, s', built := BoostFacts(s, cfg, b, estimate, height);
    if built.Some? {
      var x := built.value;
      var rate := Fees.NetworkFeeRate(cfg, estimate).0;
      var r := NewSpeedup(x, q.parentVsizes, BoostKind(tip, q, x), height);
      RecordIsNew(noted, r, tip.txid);
      BoostStored(s, s', cfg, tip, r, q, x.capped);
      RbfRequested(cfg, all, tip, rate);
      BoostKindReplaces(tip, q, x, height);
      assert FeeOk(cfg, s.txs[tip.txid]);
      TipReplacementPays(cfg, all, height, tip, rate, x, r);
    }
  }

  lemma BoostKindReplaces(tip: CoordinatedTx, q: BuildRequest, x: BuildResult, height: BlockHeight)
    requires tip.kind.Speedup? && q.isRbf && |tip.FundingInputs()| <= |x.fundingInputs|
    ensures var r := NewSpeedup(x, q.parentVsizes, BoostKind(tip, q, x), height);
            r.Supersedes(tip.txid) && r.txid == x.txid && r.tx == x.tx && r.feeInfo.fee == x.fee
  {}

  lemma TipReplacementPays(cfg: Config, all: seq<CoordinatedTx>, height: BlockHeight, tip: CoordinatedTx, rate: nat,
                           x: BuildResult, r: CoordinatedTx)
    requires cfg.Valid() && cfg.baseFeeMultiplier >= 1.0 && StaleTip(cfg, all, height) == Some(tip)
    requires tip.kind.Speedup? && FeeOk(cfg, tip) && tip.feeInfo.packageFeeRate < cfg.maxFeerate && UseRbf(cfg, all)
    requires PaysForSize(cfg, BoostRequest(cfg, all, tip, rate), x) && r.tx == x.tx && r.feeInfo.fee == x.fee
    ensures ReplacementRules(cfg, tip, Fees.BoostFeeRate(rate, tip.feeInfo.packageFeeRate), x, r)
  {
    hide StaleTip, BoostRequest, UseRbf, PaysForSize, LiveInMempool, ReplacementFloor, Fees.Sum;
    var q := BoostRequest(cfg, all, tip, rate);
    TipIsLast(cfg, all, height);
    BoostAsks(cfg, all, tip, rate);
    BumpAtLeastOne(cfg, all, tip, rate);
    RbfRequested(cfg, all, tip, rate);
    var chain := LiveInMempool(all, |all|);
    if x.capped {
      CappedReplacement(cfg, tip, q, x);
    } else {
      FloorHolds(cfg, tip, chain, q, x);
      if x.estimate >= tip.tx.vsize {
        ReplacementPays(cfg, tip, chain, q, x);
      }
      if x.estimate <= tip.tx.vsize
         && (tip.tx.vsize - x.estimate) * q.feeRate <= tip.tx.vsize * (q.feeRate - tip.feeInfo.packageFeeRate)
      {
        SmallerReplacementPays(cfg, tip, chain, q, x);
      }
    }
  }

  lemma RbfRequested(cfg: Config, all: seq<CoordinatedTx>, tip: CoordinatedTx, rate: nat)
    requires tip.kind.Speedup?
    ensures BoostRequest(cfg, all, tip, rate).isRbf == UseRbf(cfg, all)
  {}

  /** Every boost stores a higher package rate than its tip, and a capped one reaches the cap. */
  lemma BoostEscalates(s: State, cfg: Config, b: Builder, estimate: Option<nat>, height: BlockHeight)
    requires Inv(s) && FeesOk(cfg, s) && cfg.Valid() && cfg.baseFeeMultiplier >= 1.0 && FreshBuilder(s, b)
    requires StaleTip(cfg, SpeedupRecords(s), height).Some?
    ensures var tip := StaleTip(cfg, SpeedupRecords(s), height).value;
            var built := BoostBuild(s, cfg, b, estimate, tip).1;
            var s' := BoostIfStale(s, cfg, b, estimate, false, height);
            && (built.None? ==> s'.txs.Keys == s.txs.Keys)
            && (built.Some? ==>
                  && built.value.txid !in s.txs
                  && s'.txs.Keys == s.txs.Keys + {built.value.txid}
                  && s'.txs[built.value.txid].feeInfo.packageFeeRate > tip.feeInfo.packageFeeRate
                  && (built.value.capped ==> s'.txs[built.value.txid].feeInfo.packageFeeRate >= cfg.maxFeerate)
                  && (built.value.estimate == built.value.tx.vsize ==>
                        s'.txs[built.value.txid].feeInfo.packageFeeRate <= cfg.maxFeerate))
  {
    hide Inv, FreshBuilder, StaleTip, Masked, SpeedupRecords, SameCore, Fees.NetworkFeeRate, Claim, Waiting;
    hide BoostBuild, NewRecord, BuiltInputs, SaveSpeedup, NoteCap, BoostRequest, PaysForSize, BoostIfStale;
    var all := SpeedupRecords(s);
    var noted, tip, q, s', built := BoostFacts(s, cfg, b, estimate, height);
    if built.Some? {
      var x := built.value;
      var rate := Fees.NetworkFeeRate(cfg, estimate).0;
      var r := NewSpeedup(x, q.parentVsizes, BoostKind(tip, q, x), height);
      RecordIsNew(noted, r, tip.txid);
      NewIsFresh(noted, r);
      BoostStored(s, s', cfg, tip, r, q, x.capped);
      BoostKeys(noted, cfg, tip, r, q, x.capped);
      BoostAsks(cfg, all, tip, rate);
      assert FeeOk(cfg, s.txs[tip.txid]);
      BumpAtLeastOne(cfg, all, tip, rate);
      StoredRateReaches(cfg, q, x);
      if x.estimate == x.tx.vsize {
        CapIsExact(cfg, q, x);
      }
    }
  }

  lemma BoostKeys(s: State, cfg: Config, tip: CoordinatedTx, r: CoordinatedTx, q: BuildRequest, capped: bool)
    requires Inv(s) && r.kind.Speedup? && tip.txid in s.txs
    ensures NoteCap(SaveSpeedup(Claim(s, r.Claimed()), r), cfg, tip, r, q, capped).txs.Keys == s.txs.Keys + {r.txid}
  {
    ClaimKeepsInv(s, r.Claimed());
    hide Inv, Claim;
    assert Claim(s, r.Claimed()).txs.Keys == s.txs.Keys;
  }

  /** A speedup at or above the cap is never boosted. */
  lemma CappedIsNeverBoosted(s: State, cfg: Config, height: BlockHeight, t: Txid)
    requires KeysOk(s) && ListOk(s) && t in s.txs && s.txs[t].feeInfo.packageFeeRate >= cfg.maxFeerate
    ensures var tip := StaleTip(cfg, SpeedupRecords(s), height); tip.Some? ==> tip.value.txid != t
  {
    if StaleTip(cfg, SpeedupRecords(s), height).Some? {
      TipFacts(s, cfg, height);
    }
  }

  // ---------------------------------------------------------------- runs of boosts

  lemma EventKeepsRate(s: State, cfg: Config, e: Event, t: Txid)
    requires Inv(s) && cfg.Valid() && Admissible(s, cfg, e) && IsSpeedup(s, t) && t in Step(s, cfg, e).txs
    ensures IsSpeedup(Step(s, cfg, e), t)
    ensures Step(s, cfg, e).txs[t].feeInfo.packageFeeRate == s.txs[t].feeInfo.packageFeeRate
            || Step(s, cfg, e).txs[t].feeInfo.packageFeeRate == cfg.maxFeerate
  {
    hide Inv, Step, Admissible;
    EventMoves(s, cfg, e, t);
  }

  lemma {:induction false} RunKeepsRate(s: State, cfg: Config, es: seq<Event>, t: Txid)
    requires Inv(s) && cfg.Valid() && AdmissibleRun(s, cfg, es) && StaysStored(s, cfg, es, t) && IsSpeedup(s, t)
    ensures IsSpeedup(Run(s, cfg, es), t)
    ensures Run(s, cfg, es).txs[t].feeInfo.packageFeeRate == s.txs[t].feeInfo.packageFeeRate
            || Run(s, cfg, es).txs[t].feeInfo.packageFeeRate == cfg.maxFeerate
    decreases |es|
  {
    hide Inv, Step, Admissible;
    if es != [] {
      StepKeepsInv(s, cfg, es[0]);
      EventKeepsRate(s, cfg, es[0], t);
      RunKeepsRate(Step(s, cfg, es[0]), cfg, es[1..], t);
    }
  }

  /** Event `e` builds `y` as a boost of the tip `x`. */
  ghost predicate Boosts(s: State, cfg: Config, e: Event, x: Txid, y: Txid) {
    && e.BoostEvent?
    && StaleTip(cfg, SpeedupRecords(s), e.height).Some?
    && StaleTip(cfg, SpeedupRecords(s), e.height).value.txid == x
    && y !in s.txs
    && y in Step(s, cfg, e).txs
  }

  /** The run boosts `x`, later boosts that boost, and so on, `n` times; other events may come in between. */
  ghost predicate BoostsInARow(s: State, cfg: Config, es: seq<Event>, x: Txid, n: nat)
    decreases n
  {
    n > 0 ==> exists i, y :: (
      && 0 <= i < |es|
      && StaysStored(s, cfg, es[..i], x)
      && Boosts(Run(s, cfg, es[..i]), cfg, es[i], x, y)
      && BoostsInARow(Step(Run(s, cfg, es[..i]), cfg, es[i]), cfg, es[i + 1..], y, n - 1))
  }

  lemma BoostRaises(s: State, cfg: Config, e: Event, x: Txid, y: Txid)
    requires Inv(s) && FeesOk(cfg, s) && cfg.Valid() && cfg.baseFeeMultiplier >= 1.0 && Admissible(s, cfg, e)
    requires Boosts(s, cfg, e, x, y)
    ensures x in s.txs && s.txs[x].feeInfo.packageFeeRate < cfg.maxFeerate
    ensures IsSpeedup(Step(s, cfg, e), y)
    ensures Step(s, cfg, e).txs[y].feeInfo.packageFeeRate > s.txs[x].feeInfo.packageFeeRate
  {
    hide Inv, KeysOk, ListOk, LineageOk, RbfOk, QueueOk, InputsOk, LifecycleOk, ParentsOk, ReservedOk, FeesOk, FreshBuilder;
    hide StaleTip, SpeedupRecords, BoostIfStale, BoostBuild, Waiting, Masked;
    InvParts(s);
    TipFacts(s, cfg, e.height);
    NewRecords(s, cfg, e, y);
    SkippedBoost(s, cfg, e.builder, e.estimate, e.height);
    BoostEscalates(s, cfg, e.builder, e.estimate, e.height);
  }

  lemma SkippedBoost(s: State, cfg: Config, b: Builder, estimate: Option<nat>, height: BlockHeight)
    ensures BoostIfStale(s, cfg, b, estimate, true, height) == s
  {}

  /** Boosts stop: a run holds at most as many consecutive boosts as rates are left below the cap. */
  lemma {:induction false} BoostsAreBounded(s: State, cfg: Config, es: seq<Event>, x: Txid, n: nat)
    requires Inv(s) && FeesOk(cfg, s) && cfg.Valid() && cfg.baseFeeMultiplier >= 1.0
    requires AdmissibleRun(s, cfg, es) && IsSpeedup(s, x) && BoostsInARow(s, cfg, es, x, n)
    ensures n <= SaturatingSub(cfg.maxFeerate, s.txs[x].feeInfo.packageFeeRate)
    decreases n
  {
    hide Inv, Step, Admissible, FeesOk, Boosts;
    if n > 0 {
      var i, y :| 0 <= i < |es| && StaysStored(s, cfg, es[..i], x)
                  && Boosts(Run(s, cfg, es[..i]), cfg, es[i], x, y)
                  && BoostsInARow(Step(Run(s, cfg, es[..i]), cfg, es[i]), cfg, es[i + 1..], y, n - 1);
      var before := Run(s, cfg, es[..i]);
      var after := Step(before, cfg, es[i]);
      assert es == es[..i] + es[i..];
      RunConcat(s, cfg, es[..i], es[i..]);
      assert es[i..][0] == es[i] && es[i..][1..] == es[i + 1..];
      RunKeepsInv(s, cfg, es[..i]);
      RunKeepsFees(s, cfg, es[..i]);
      RunKeepsRate(s, cfg, es[..i], x);
      BoostRaises(before, cfg, es[i], x, y);
      StepKeepsInv(before, cfg, es[i]);
      StepKeepsFees(before, cfg, es[i]);
      BoostsAreBounded(after, cfg, es[i + 1..], y, n - 1);
    }
  }

  /** A run of consecutive boosts in a reachable state has at most `max_feerate_sat_vb` members. */
  lemma AtMostMaxBoosts(cfg: Config, s: State, es: seq<Event>, x: Txid, n: nat)
    requires cfg.Valid() && cfg.baseFeeMultiplier >= 1.0 && Reachable(cfg, s)
    requires AdmissibleRun(s, cfg, es) && IsSpeedup(s, x) && BoostsInARow(s, cfg, es, x, n)
    ensures n <= cfg.maxFeerate
  {
    hide Inv, Reachable, FeesOk, AdmissibleRun, BoostsInARow;
    ReachableInv(cfg, s);
    ReachableFees(cfg, s);
    BoostsAreBounded(s, cfg, es, x, n);
  }
}

/** When step 5 boosts and what it stores, exactly, read from the store alone (src/engines/speedup_engine.rs:195-389). */
module DueLaws {
  import opened Types
  import opened Oracles
  import opened States
  import opened Fees
  import opened Funding
  import opened Engines
  import opened FeeLaws
  import opened Invariants
  import opened Evolution
  import opened GrowthLaws
  import opened BuildLaws
  import opened ReviewLaws
  import opened DispatchLaws
  import opened CreationLaws
  import opened Runs
  import opened SlotLaws
  import opened SlotBounds
  import opened BuildChoices

  /** A listed speedup in the mempool that nothing replaces. */
  ghost predicate LiveSpeedup(s: State, t: Txid) {
    t in s.speedups && IsSpeedup(s, t) && s.txs[t].state.InMempool? && !Masked(s, t)
  }

  ghost predicate LastLive(s: State, t: Txid) {
    exists i :: 0 <= i < |s.speedups| && s.speedups[i] == t && LiveSpeedup(s, t)
                && forall j :: i < j < |s.speedups| ==> !LiveSpeedup(s, s.speedups[j])
  }

  ghost predicate NothingWaits(s: State) {
    forall t :: t in s.speedups && t in s.txs ==> !s.txs[t].state.ToDispatch?
  }

  /** `t` is the tip to boost at `height`: nothing waits, it is the last live speedup, it was sent long enough ago and its
      package is priced below the cap. */
  ghost predicate BoostDue(s: State, cfg: Config, height: BlockHeight, t: Txid) {
    && NothingWaits(s)
    && LastLive(s, t)
    && s.txs[t].broadcastBlockHeight.Some?
    && (cfg.minBlocksBeforeResend == 0 || s.txs[t].broadcastBlockHeight.value + cfg.minBlocksBeforeResend <= height)
    && s.txs[t].feeInfo.packageFeeRate < cfg.maxFeerate
  }

  // ---------------------------------------------------------------- the engine's tip is the due one

  /** The live speedups are found from the front. */
  lemma LiveNext(all: seq<CoordinatedTx>, n: nat)
    requires 0 < n <= |all|
    ensures LiveInMempool(all, n)
            == LiveInMempool(all, n - 1) + if all[n - 1].IsLiveInMempool(all) then [all[n - 1]] else []
  {
    hide CoordinatedTx.IsLiveInMempool;
  }

  lemma {:induction false} LiveEndsWith(all: seq<CoordinatedTx>, n: nat, i: nat)
    requires i < n <= |all| && all[i].IsLiveInMempool(all)
    requires forall j :: i < j < n ==> !all[j].IsLiveInMempool(all)
    ensures LiveInMempool(all, n) != [] && LiveInMempool(all, n)[|LiveInMempool(all, n)| - 1] == all[i]
    decreases n
  {
    hide CoordinatedTx.IsLiveInMempool, LiveInMempool;
    LiveNext(all, n);
    if i < n - 1 {
      LiveEndsWith(all, n - 1, i);
    }
  }

  lemma {:induction false} NoneLive(all: seq<CoordinatedTx>, n: nat)
    requires n <= |all| && forall j :: 0 <= j < n ==> !all[j].IsLiveInMempool(all)
    ensures LiveInMempool(all, n) == []
    decreases n
  {
    hide CoordinatedTx.IsLiveInMempool;
    if n > 0 {
      LiveNext(all, n);
      NoneLive(all, n - 1);
    }
  }

  lemma ListedIsLive(s: State, i: nat)
    requires Inv(s) && i < |s.speedups|
    ensures |SpeedupRecords(s)| == |s.speedups|
    ensures s.speedups[i] in s.txs && SpeedupRecords(s)[i] == s.txs[s.speedups[i]] && s.txs[s.speedups[i]].kind.Speedup?
    ensures SpeedupRecords(s)[i].IsLiveInMempool(SpeedupRecords(s)) <==> LiveSpeedup(s, s.speedups[i])
  {
    hide Inv, SpeedupRecords, Masked, InputsOk, KeysOk, LineageOk, RbfOk, QueueOk, LifecycleOk, ParentsOk, ReservedOk;
    hide CoordinatedTx.IsLiveInMempool, CoordinatedTx.HasLiveReplacement, ListOk;
    ListedSnapshot(s);
    InvParts(s);
    ListedIsSpeedup(s, s.speedups[i]);
    MaskIsReplacement(s, s.speedups[i]);
    LiveIs(s.txs[s.speedups[i]], SpeedupRecords(s));
  }

  lemma LiveIs(r: CoordinatedTx, all: seq<CoordinatedTx>)
    ensures r.IsLiveInMempool(all) <==> r.state.InMempool? && !r.HasLiveReplacement(all)
  {
    hide CoordinatedTx.HasLiveReplacement;
  }

  lemma NothingWaitsIs(s: State)
    requires Inv(s)
    ensures AnyWaiting(SpeedupRecords(s)) <==> !NothingWaits(s)
  {
    hide Inv, SpeedupRecords;
    ListedSnapshot(s);
    if t :| t in s.speedups && t in s.txs && s.txs[t].state.ToDispatch? {
      var i :| 0 <= i < |s.speedups| && s.speedups[i] == t;
      assert SpeedupRecords(s)[i].state.ToDispatch?;
    }
  }

  lemma LastLiveIs(s: State, t: Txid)
    requires Inv(s) && LastLive(s, t)
    ensures t in s.txs && s.txs[t].kind.Speedup?
    ensures var live := LiveInMempool(SpeedupRecords(s), |SpeedupRecords(s)|); live != [] && live[|live| - 1] == s.txs[t]
  {
    hide Inv, SpeedupRecords, LiveSpeedup, LiveInMempool;
    var i :| 0 <= i < |s.speedups| && s.speedups[i] == t && LiveSpeedup(s, t)
             && forall j :: i < j < |s.speedups| ==> !LiveSpeedup(s, s.speedups[j]);
    ListedIsLive(s, i);
    forall j | i < j < |s.speedups| ensures !SpeedupRecords(s)[j].IsLiveInMempool(SpeedupRecords(s)) {
      ListedIsLive(s, j);
    }
    LiveEndsWith(SpeedupRecords(s), |s.speedups|, i);
  }

  lemma {:induction false} SomeLastLive(s: State, n: nat)
    requires n <= |s.speedups| && forall j :: n <= j < |s.speedups| ==> !LiveSpeedup(s, s.speedups[j])
    ensures (forall t :: t in s.speedups ==> !LiveSpeedup(s, t)) || exists t :: LastLive(s, t)
    decreases n
  {
    hide LiveSpeedup;
    if n > 0 {
      if LiveSpeedup(s, s.speedups[n - 1]) {
        assert LastLive(s, s.speedups[n - 1]);
      } else {
        SomeLastLive(s, n - 1);
      }
    }
  }

  lemma NothingLive(s: State)
    requires Inv(s) && forall t :: t in s.speedups ==> !LiveSpeedup(s, t)
    ensures LiveInMempool(SpeedupRecords(s), |SpeedupRecords(s)|) == []
  {
    hide Inv, SpeedupRecords, LiveSpeedup, LiveInMempool;
    ListedSnapshot(s);
    forall i | 0 <= i < |s.speedups| ensures !SpeedupRecords(s)[i].IsLiveInMempool(SpeedupRecords(s)) {
      ListedIsLive(s, i);
    }
    NoneLive(SpeedupRecords(s), |s.speedups|);
  }

  lemma DueIsStale(s: State, cfg: Config, height: BlockHeight, t: Txid)
    requires Inv(s) && BoostDue(s, cfg, height, t)
    ensures t in s.txs && StaleTip(cfg, SpeedupRecords(s), height) == Some(s.txs[t])
  {
    hide Inv, SpeedupRecords, LiveInMempool, NothingWaits, LastLive, AnyWaiting;
    NothingWaitsIs(s);
    LastLiveIs(s, t);
  }

  lemma StaleIsDue(s: State, cfg: Config, height: BlockHeight)
    requires Inv(s) && StaleTip(cfg, SpeedupRecords(s), height).Some?
    ensures exists t :: BoostDue(s, cfg, height, t)
  {
    hide Inv, SpeedupRecords, LiveInMempool, NothingWaits, LastLive, AnyWaiting;
    NothingWaitsIs(s);
    SomeLastLive(s, |s.speedups|);
    if t :| LastLive(s, t) {
      LastLiveIs(s, t);
      assert BoostDue(s, cfg, height, t);
    } else {
      NothingLive(s);
    }
  }

  // ---------------------------------------------------------------- what a new speedup pays

  /** The vsize of the live speedups among the first `n` of the list. */
  ghost function LiveVsize(s: State, n: nat): nat
    requires n <= |s.speedups|
  {
    if n == 0 then 0
    else LiveVsize(s, n - 1) + if LiveSpeedup(s, s.speedups[n - 1]) then s.txs[s.speedups[n - 1]].tx.vsize else 0
  }

  /** What it costs to lift the live speedups from the rate of the last one to `rate`. */
  ghost predicate IsLift(s: State, rate: nat, lift: nat) {
    && (forall t :: LastLive(s, t) ==>
          lift == LiveVsize(s, |s.speedups|) * (if rate > s.txs[t].feeInfo.packageFeeRate then rate - s.txs[t].feeInfo.packageFeeRate
                                                else 0))
    && ((forall t :: t in s.speedups ==> !LiveSpeedup(s, t)) ==> lift == 0)
  }

  /** Both stored rates are what the fee amounts to: its own, and its package's with the parents paying 1 themselves. */
  predicate RatesFollow(r: CoordinatedTx)
    requires r.kind.Speedup?
  {
    var parents, fee := Sum(r.kind.speedup.context.parentVsizes), r.feeInfo.fee;
    0 < r.tx.vsize && r.feeInfo == FeeInfo(fee, fee / r.tx.vsize, (parents + fee) / (parents + r.tx.vsize), r.tx.weight)
  }

  /** `r` pays exactly the fee for a size that covers it, at `rate` and with the lift of the chain before it. */
  ghost predicate PaysFee(s: State, cfg: Config, rate: nat, r: CoordinatedTx, capped: bool)
    requires r.kind.Speedup?
  {
    exists estimate: nat, lift: nat ::
      && r.tx.vsize <= estimate
      && IsLift(s, rate, lift)
      && IsFee(cfg, Sum(r.kind.speedup.context.parentVsizes), estimate, rate, r.kind.speedup.RBF?, lift,
               r.kind.speedup.context.bumpFeeUsed, r.feeInfo.fee, capped)
  }

  /** The price of a new speedup. With a multiplier of at least 1 its package rate reaches `rate`, or the cap. */
  ghost predicate PaysRate(s: State, cfg: Config, rate: nat, r: CoordinatedTx, capped: bool)
    requires r.kind.Speedup?
  {
    && RatesFollow(r)
    && (r.kind.speedup.context.bumpFeeUsed >= 0.0 ==> PaysFee(s, cfg, rate, r, capped))
    && (r.kind.speedup.context.bumpFeeUsed >= 1.0 ==>
          r.feeInfo.packageFeeRate >= rate || r.feeInfo.packageFeeRate >= cfg.maxFeerate)
  }

  lemma {:induction false} TotalVsizeGrows(a: seq<CoordinatedTx>, r: CoordinatedTx)
    ensures TotalVsize(a + [r]) == TotalVsize(a) + r.tx.vsize
  {
    if a == [] {
      assert a + [r] == [r];
    } else {
      assert (a + [r])[1..] == a[1..] + [r];
      TotalVsizeGrows(a[1..], r);
    }
  }

  lemma {:induction false} LiveVsizeIs(s: State, n: nat)
    requires Inv(s) && n <= |s.speedups|
    ensures |SpeedupRecords(s)| == |s.speedups|
    ensures TotalVsize(LiveInMempool(SpeedupRecords(s), n)) == LiveVsize(s, n)
    decreases n
  {
    hide Inv, SpeedupRecords, LiveSpeedup, TotalVsize, CoordinatedTx.IsLiveInMempool;
    ListedSnapshot(s);
    var all := SpeedupRecords(s);
    if n == 0 {
      NoVsize();
    } else {
      var front := LiveInMempool(all, n - 1);
      LiveVsizeIs(s, n - 1);
      ListedIsLive(s, n - 1);
      TotalVsizeGrows(front, all[n - 1]);
      LiveNext(all, n);
      assert front + [] == front;
    }
  }

  lemma NoVsize()
    ensures TotalVsize([]) == 0
  {}

  lemma LiftOver(s: State, rate: nat, t: Txid)
    requires Inv(s) && LastLive(s, t)
    ensures t in s.txs
    ensures var all := SpeedupRecords(s);
            ChainFeeDiff(rate, LiveInMempool(all, |all|))
            == LiveVsize(s, |s.speedups|) * (if rate > s.txs[t].feeInfo.packageFeeRate then rate - s.txs[t].feeInfo.packageFeeRate
                                             else 0)
  {
    hide Inv, SpeedupRecords, LiveInMempool, LiveSpeedup, LastLive, TotalVsize, LiveVsize;
    LiveVsizeIs(s, |s.speedups|);
    LastLiveIs(s, t);
  }

  lemma LiftIs(s: State, rate: nat)
    requires Inv(s)
    ensures var all := SpeedupRecords(s); IsLift(s, rate, ChainFeeDiff(rate, LiveInMempool(all, |all|)))
  {
    hide Inv, SpeedupRecords, LiveInMempool, LiveSpeedup, LastLive, ChainFeeDiff;
    var lift := ChainFeeDiff(rate, LiveInMempool(SpeedupRecords(s), |SpeedupRecords(s)|));
    forall t | LastLive(s, t)
      ensures t in s.txs
      ensures lift == LiveVsize(s, |s.speedups|) * (if rate > s.txs[t].feeInfo.packageFeeRate then rate - s.txs[t].feeInfo.packageFeeRate
                                                    else 0)
    {
      LiftOver(s, rate, t);
    }
    if forall t :: t in s.speedups ==> !LiveSpeedup(s, t) {
      NothingLive(s);
      NoLift(rate);
    }
  }

  lemma NoLift(rate: nat)
    ensures ChainFeeDiff(rate, []) == 0
  {}

  lemma RatesAgree(x: BuildResult, parentVsizes: seq<nat>)
    ensures var parents := Sum(parentVsizes);
            FeeInfoForPaidSpeedup(x.tx, x.fee, parents)
            == FeeInfo(x.fee, x.fee / x.tx.vsize, (parents + x.fee) / (parents + x.tx.vsize), x.tx.weight)
  {
    hide Sum;
    assert Sum(parentVsizes) * MIN_RELAY_FEE_RATE == Sum(parentVsizes);
  }

  lemma FeeIsPaid(s: State, cfg: Config, q: BuildRequest, x: BuildResult, r: CoordinatedTx)
    requires Inv(s) && cfg.Valid() && PaysForSize(cfg, q, x) && q.feeRate >= 1 && q.bump >= 0.0
    requires r.kind.Speedup? && r.tx == x.tx && r.feeInfo.fee == x.fee && r.kind.speedup.RBF? == q.isRbf
    requires r.kind.speedup.context.bumpFeeUsed == q.bump && r.kind.speedup.context.parentVsizes == q.parentVsizes
    requires var all := SpeedupRecords(s); q.chainDiff == ChainFeeDiff(q.feeRate, LiveInMempool(all, |all|))
    ensures PaysFee(s, cfg, q.feeRate, r, x.capped)
  {
    assert x.tx.vsize <= x.estimate;
    hide Inv, SpeedupRecords, LiveInMempool, IsLift, IsFee, PaysForSize, Sum, ChainFeeDiff;
    LiftIs(s, q.feeRate);
    FeeIs(cfg, q, x);
  }

  lemma RecordFields(x: BuildResult, parentVsizes: seq<nat>, kind: SpeedupKind, height: BlockHeight)
    requires kind.context.parentVsizes == parentVsizes
    ensures var r := NewSpeedup(x, parentVsizes, kind, height);
      && r.kind == Speedup(kind) && r.tx == x.tx && r.feeInfo.fee == x.fee && RatesFollow(r)
      && r.feeInfo == FeeInfoForPaidSpeedup(x.tx, x.fee, Sum(parentVsizes))
  {
    hide Sum, FeeInfoForPaidSpeedup;
    RatesAgree(x, parentVsizes);
  }

  lemma RecordPays(s: State, cfg: Config, q: BuildRequest, x: BuildResult, kind: SpeedupKind, height: BlockHeight)
    requires Inv(s) && cfg.Valid() && PaysForSize(cfg, q, x) && q.feeRate >= 1 && q.isRbf == kind.RBF?
    requires kind.context.bumpFeeUsed == q.bump && kind.context.parentVsizes == q.parentVsizes
    requires var all := SpeedupRecords(s); q.chainDiff == ChainFeeDiff(q.feeRate, LiveInMempool(all, |all|))
    ensures PaysRate(s, cfg, q.feeRate, NewSpeedup(x, q.parentVsizes, kind, height), x.capped)
  {
    hide Inv, SpeedupRecords, LiveInMempool, PaysForSize, Sum, ChainFeeDiff, FeeInfoForPaidSpeedup, NewSpeedup, RatesFollow, PaysFee;
    RecordFields(x, q.parentVsizes, kind, height);
    if q.bump >= 0.0 {
      FeeIsPaid(s, cfg, q, x, NewSpeedup(x, q.parentVsizes, kind, height));
    }
    if q.bump >= 1.0 {
      StoredRateReaches(cfg, q, x);
    }
  }

  // ---------------------------------------------------------------- what a boost stores

  /** A speedup as it is saved: waiting, never sent, unmarked. */
  predicate NewlyBuilt(r: CoordinatedTx, height: BlockHeight) {
    && r.state.ToDispatch?
    && r.targetBlockHeight == height
    && r.stuckInMempoolBlocks.None? && r.settledBlockHeight.None? && r.broadcastBlockHeight.None? && r.failGuardUntil.None?
    && r.retryCount == 0
    && r.kind.Speedup?
    && r.kind.speedup.context.replacedBy.None?
    && !r.kind.speedup.context.spent
  }

  /** What a boost of `tip` is: with every slot taken a replacement that keeps the tip's funding and parent sizes,
      otherwise a CPFP of the tip with funding of its own; either way one more bump. */
  ghost predicate BoostsTip(s: State, cfg: Config, tip: CoordinatedTx, r: CoordinatedTx)
    requires tip.kind.Speedup? && r.kind.Speedup?
  {
    var mine, its := r.kind.speedup.context, tip.kind.speedup.context;
    && mine.bumpFeeUsed == its.bumpFeeUsed * cfg.bumpFeePercentage
    && if |Occupied(s)| >= cfg.maxUnconfirmedSpeedups then
         && its.fundingInputs <= mine.fundingInputs
         && mine.parentVsizes == its.parentVsizes
         && r.kind.speedup == RBF(tip.txid, mine.fundingInputs[|its.fundingInputs|..], mine)
       else
         && GetFunding(s).1.Some?
         && [GetFunding(s).1.value.0] <= mine.fundingInputs
         && mine.parentVsizes == []
         && r.kind.speedup == CPFP([tip.txid], mine)
  }

  lemma ChoiceIgnoresNews(s: State, s': State)
    requires SameCore(s, s')
    ensures ChosenFunding(s') == ChosenFunding(s)
  {
    FirstIgnoresNews(s, s', s.queue);
    hide LatestOpenTip, FirstOpenRecord;
    assert SpeedupRecords(s') == SpeedupRecords(s);
  }

  lemma {:induction false} FirstIgnoresNews(s: State, s': State, queue: seq<OutPoint>)
    requires SameCore(s, s')
    ensures FirstOpenRecord(s', queue, false) == FirstOpenRecord(s, queue, false)
  {
    if queue != [] {
      FirstIgnoresNews(s, s', queue[1..]);
    }
  }

  lemma TipFunding(s: State, t: Txid)
    requires Inv(s) && IsSpeedup(s, t)
    ensures 1 <= |s.txs[t].FundingInputs()|
  {
    assert InputsOf(s, t);
  }

  lemma SlotsCounted(s: State, cfg: Config)
    requires Inv(s) && NothingWaits(s)
    ensures UseRbf(cfg, SpeedupRecords(s)) <==> |Occupied(s)| >= cfg.maxUnconfirmedSpeedups
  {
    hide Inv, SpeedupRecords, LiveInMempool, KeysOk, LineageOk, RbfOk, QueueOk, InputsOk, LifecycleOk, ParentsOk, ReservedOk;
    hide Occupied;
    InvParts(s);
    NothingWaitsIs(s);
    NobodyWaits(s);
    LiveCount(s);
  }

  lemma RequestIs(s: State, cfg: Config, t: Txid, rate: nat)
    requires Inv(s) && NothingWaits(s) && IsSpeedup(s, t)
    ensures var q := BoostRequest(cfg, SpeedupRecords(s), s.txs[t], rate);
            var its := s.txs[t].kind.speedup.context;
      && (q.isRbf <==> |Occupied(s)| >= cfg.maxUnconfirmedSpeedups)
      && q.bump == its.bumpFeeUsed * cfg.bumpFeePercentage
      && q.parentVsizes == (if q.isRbf then its.parentVsizes else [])
  {
    hide Inv, SpeedupRecords, LiveInMempool, NothingWaits, UseRbf, Occupied;
    SlotsCounted(s, cfg);
  }

  lemma BuiltPrefix(s: State, cfg: Config, b: Builder, q: BuildRequest, tip: CoordinatedTx)
    requires Inv(s) && 0 < cfg.dustLimit && tip.kind.Speedup? && 1 <= |tip.FundingInputs()| <= 2
    ensures var built := BuildSpeedup(s, cfg, b, q, if q.isRbf then Some(tip.FundingInputs()) else None).1;
            built.Some? ==>
              if q.isRbf then tip.FundingInputs() <= built.value.fundingInputs
              else ChosenFunding(s).Some? && [ChosenFunding(s).value.0] <= built.value.fundingInputs
  {
    hide Inv, KeysOk, ListOk, LineageOk, RbfOk, QueueOk, InputsOk, LifecycleOk, ParentsOk, ReservedOk, ChosenFunding, Claim;
    hide BuildSpeedup, PaysForSize, Claimable, BuiltBy;
    InvParts(s);
    BuildSpeedupContract(s, cfg, b, q, if q.isRbf then Some(tip.FundingInputs()) else None);
  }

  lemma FundingPresent(s: State, t: Txid)
    requires Inv(s) && IsSpeedup(s, t)
    ensures 1 <= |s.txs[t].FundingInputs()| <= 2
  {
    assert InputsOf(s, t);
  }

  lemma NewRecordIs(s: State, cfg: Config, tip: CoordinatedTx, q: BuildRequest, x: BuildResult, height: BlockHeight)
    requires tip.kind.Speedup?
    requires (q.isRbf <==> |Occupied(s)| >= cfg.maxUnconfirmedSpeedups)
    requires q.bump == tip.kind.speedup.context.bumpFeeUsed * cfg.bumpFeePercentage
    requires q.parentVsizes == (if q.isRbf then tip.kind.speedup.context.parentVsizes else [])
    requires if q.isRbf then tip.FundingInputs() <= x.fundingInputs
             else ChosenFunding(s).Some? && [ChosenFunding(s).value.0] <= x.fundingInputs
    ensures var r := NewSpeedup(x, q.parentVsizes, BoostKind(tip, q, x), height);
            r.txid == x.txid && NewlyBuilt(r, height) && BoostsTip(s, cfg, tip, r)
  {
    hide Occupied, ChosenFunding, FeeInfoForPaidSpeedup, Sum;
  }

  /** A capped boost is reported; a capped replacement also raises the stored rate of the tip it replaces to the cap, so that the tip
      is not boosted again. No other price changes. */
  ghost predicate CapNoted(s: State, s': State, cfg: Config, t: Txid, r: CoordinatedTx, capped: bool)
    requires t in s.txs && r.kind.Speedup?
  {
    var reached := MaxFeeRateReached(r.txid, r.feeInfo.packageFeeRate);
    && (reached in s'.news <==> reached in s.news || capped)
    && t in s'.txs
    && s'.txs[t].feeInfo == (if capped && r.kind.speedup.RBF? then s.txs[t].feeInfo.(packageFeeRate := cfg.maxFeerate)
                             else s.txs[t].feeInfo)
    && forall x :: x in s.txs && x in s'.txs && x != t ==> s'.txs[x].feeInfo == s.txs[x].feeInfo
  }

  lemma StoredBoost(s: State, s': State, cfg: Config, tip: CoordinatedTx, r: CoordinatedTx, q: BuildRequest, capped: bool)
    requires r.kind.Speedup? && s'.txs.Keys == s.txs.Keys && r.txid !in s.txs && tip.txid in s.txs && r.txid !in s'.speedups
    requires s'.speedups == s.speedups && s'.psp == s.psp && s'.queue == s.queue && s'.news == s.news
    requires forall x :: x in s.txs ==> s'.txs[x].feeInfo == s.txs[x].feeInfo
    requires q.isRbf == r.kind.speedup.RBF?
    ensures var s2 := NoteCap(SaveSpeedup(s', r), cfg, tip, r, q, capped);
      && s2.txs.Keys == s.txs.Keys + {r.txid} && s2.txs[r.txid] == r
      && s2.speedups == s.speedups + [r.txid] && s2.psp == s.psp && s2.queue == s.queue
      && CapNoted(s, s2, cfg, tip.txid, r, capped)
  {}

  lemma NotedCap(s: State, noted: State, s': State, cfg: Config, t: Txid, r: CoordinatedTx, capped: bool)
    requires noted.txs == s.txs && SameCapNews(s, noted) && t in s.txs && r.kind.Speedup? && CapNoted(noted, s', cfg, t, r, capped)
    ensures CapNoted(s, s', cfg, t, r, capped)
  {}

  lemma {:induction false} ClaimNews(s: State, us: seq<Utxo>)
    ensures Claim(s, us).news == s.news
    decreases |us|
  {
    if us != [] {
      ClaimNews(s, us[..|us| - 1]);
    }
  }

  lemma ClaimLists(s: State, us: seq<Utxo>)
    requires Inv(s)
    ensures Claim(s, us).txs.Keys == s.txs.Keys && Claim(s, us).speedups == s.speedups
    ensures Claim(s, us).psp == s.psp && Claim(s, us).queue == s.queue && Claim(s, us).news == s.news
    ensures forall x :: x in s.txs ==> Claim(s, us).txs[x].feeInfo == s.txs[x].feeInfo
  {
    ClaimKeepsInv(s, us);
    ClaimNews(s, us);
    hide Inv, Claim, SameShape;
  }

  lemma FreshIsUnlisted(s: State, r: CoordinatedTx)
    requires Inv(s) && NewRecord(s, r)
    ensures r.txid !in s.txs && r.txid !in s.speedups
  {
    assert ListOk(s);
  }

  /** Nothing is stored but the reason: no funding, or amounts that fall short. */
  ghost predicate Refused(s: State, s': State) {
    && s' == s.(news := s'.news)
    && (FundingNotAvailable in s'.news || exists a, n :: a < n && InsufficientFunds(a, n) in s'.news)
  }

  /** One record is added, the boost of `t`, at the end of the speedup list; pending parents and queue stay. */
  ghost predicate BoostAdded(s: State, s': State, cfg: Config, estimate: Option<nat>, height: BlockHeight, t: Txid, n: Txid) {
    && n !in s.txs && s'.txs.Keys == s.txs.Keys + {n}
    && t in s.txs && s.txs[t].txid == t && s.txs[t].kind.Speedup?
    && s'.txs[n].txid == n
    && NewlyBuilt(s'.txs[n], height)
    && BoostsTip(s, cfg, s.txs[t], s'.txs[n])
    && (exists capped: bool ::
          && PaysRate(s, cfg, Max(NetworkRate(cfg, estimate), s.txs[t].feeInfo.packageFeeRate + 1), s'.txs[n], capped)
          && CapNoted(s, s', cfg, t, s'.txs[n], capped))
    && s'.speedups == s.speedups + [n] && s'.psp == s.psp && s'.queue == s.queue
  }

  /** What a successful build leads to, from the facts about the build. */
  lemma BuiltBoost(s: State, noted: State, cfg: Config, estimate: Option<nat>, t: Txid, q: BuildRequest, s': State, x: BuildResult,
                   height: BlockHeight)
    requires Inv(s) && cfg.Valid() && Inv(noted) && noted == s.(news := noted.news) && SameCapNews(s, noted) && NothingWaits(s)
    requires IsSpeedup(s, t) && s.txs[t].txid == t
    requires q == BoostRequest(cfg, SpeedupRecords(s), s.txs[t], NetworkFeeRate(cfg, estimate).0) && PaysForSize(cfg, q, x)
    requires if q.isRbf then s.txs[t].FundingInputs() <= x.fundingInputs
             else ChosenFunding(s).Some? && [ChosenFunding(s).value.0] <= x.fundingInputs
    requires q.isRbf ==> |s.txs[t].FundingInputs()| <= |x.fundingInputs|
    requires var r := NewSpeedup(x, q.parentVsizes, BoostKind(s.txs[t], q, x), height);
             r.kind.Speedup? && NewRecord(noted, r) && s' == Claim(noted, r.Claimed())
    ensures var r := NewSpeedup(x, q.parentVsizes, BoostKind(s.txs[t], q, x), height);
            BoostAdded(s, NoteCap(SaveSpeedup(s', r), cfg, s.txs[t], r, q, x.capped), cfg, estimate, height, t, x.txid)
  {
    hide Inv, SpeedupRecords, Fees.NetworkFeeRate, Claim, NewRecord, SaveSpeedup, NewSpeedup, BoostKind, NoteCap, BoostRequest;
    hide PaysForSize, NewlyBuilt, BoostsTip, PaysRate, NetworkRate, BoostFeeRate, CapNoted, SameCapNews, ChosenFunding, NothingWaits;
    var r := NewSpeedup(x, q.parentVsizes, BoostKind(s.txs[t], q, x), height);
    RequestIs(s, cfg, t, NetworkFeeRate(cfg, estimate).0);
    NewRecordIs(s, cfg, s.txs[t], q, x, height);
    BoostPays(s, cfg, estimate, t, x, height);
    BoostIsRbf(s.txs[t], q, x, height);
    ClaimLists(noted, r.Claimed());
    FreshIsUnlisted(noted, r);
    StoredBoost(noted, s', cfg, s.txs[t], r, q, x.capped);
    NotedCap(s, noted, NoteCap(SaveSpeedup(s', r), cfg, s.txs[t], r, q, x.capped), cfg, t, r, x.capped);
  }

  lemma DueBoost(s: State, cfg: Config, b: Builder, estimate: Option<nat>, height: BlockHeight, t: Txid)
    requires Inv(s) && cfg.Valid() && FreshBuilder(s, b) && BoostDue(s, cfg, height, t)
    ensures var s' := BoostIfStale(s, cfg, b, estimate, false, height);
            Refused(s, s') || exists n :: BoostAdded(s, s', cfg, estimate, height, t, n)
  {
    hide Inv, FreshBuilder, StaleTip, Masked, SpeedupRecords, Fees.NetworkFeeRate, Claim, Waiting, BoostBuild, BoostDue, BoostIfStale;
    hide NewRecord, BuiltInputs, SaveSpeedup, NewSpeedup, BoostKind, NoteCap, BoostRequest, PaysForSize, SameCore, Refused, BoostAdded;
    hide SameCapNews, ChosenFunding, NothingWaits;
    DueIsStale(s, cfg, height, t);
    var noted, tip, q, s', built := BoostFacts(s, cfg, b, estimate, height);
    DueWaitsNot(s, cfg, height, t);
    DueKeyed(s, cfg, height, t);
    if built.Some? {
      BoostInputs(s, cfg, b, estimate, tip);
      BuiltBoost(s, noted, cfg, estimate, t, q, s', built.value, height);
    } else {
      RefusedBoost(s, cfg, b, estimate, tip);
    }
  }

  lemma BoostIsRbf(tip: CoordinatedTx, q: BuildRequest, x: BuildResult, height: BlockHeight)
    requires tip.kind.Speedup? && (q.isRbf ==> |tip.FundingInputs()| <= |x.fundingInputs|)
    ensures var r := NewSpeedup(x, q.parentVsizes, BoostKind(tip, q, x), height); r.kind.Speedup? && r.kind.speedup.RBF? == q.isRbf
  {
    hide FeeInfoForPaidSpeedup, Sum;
  }

  lemma BoostPays(s: State, cfg: Config, estimate: Option<nat>, t: Txid, x: BuildResult, height: BlockHeight)
    requires Inv(s) && cfg.Valid() && IsSpeedup(s, t)
    requires var q := BoostRequest(cfg, SpeedupRecords(s), s.txs[t], NetworkFeeRate(cfg, estimate).0);
             PaysForSize(cfg, q, x) && (q.isRbf ==> |s.txs[t].FundingInputs()| <= |x.fundingInputs|)
    ensures var q := BoostRequest(cfg, SpeedupRecords(s), s.txs[t], NetworkFeeRate(cfg, estimate).0);
            PaysRate(s, cfg, Max(NetworkRate(cfg, estimate), s.txs[t].feeInfo.packageFeeRate + 1),
                     NewSpeedup(x, q.parentVsizes, BoostKind(s.txs[t], q, x), height), x.capped)
  {
    hide Inv, SpeedupRecords, LiveInMempool, PaysForSize, PaysRate, ChainFeeDiff, UseRbf, NewSpeedup, NetworkRate, NetworkFeeRate;
    NetworkRateIs(cfg, estimate);
    var q := BoostRequest(cfg, SpeedupRecords(s), s.txs[t], NetworkFeeRate(cfg, estimate).0);
    assert BoostKind(s.txs[t], q, x).RBF? == q.isRbf;
    RecordPays(s, cfg, q, x, BoostKind(s.txs[t], q, x), height);
  }

  lemma RefusedBoost(s: State, cfg: Config, b: Builder, estimate: Option<nat>, tip: CoordinatedTx)
    requires Inv(s) && cfg.Valid() && tip.kind.Speedup? && IsSpeedup(s, tip.txid) && s.txs[tip.txid] == tip
    ensures var (s', built) := BoostBuild(s, cfg, b, estimate, tip); built.None? ==> Refused(s, s')
  {
    hide Inv, SpeedupRecords, BoostRequest, BuildSpeedup, NetworkFeeRate, KeysOk, ListOk, LineageOk, RbfOk, QueueOk, InputsOk;
    hide LifecycleOk, ParentsOk, ReservedOk;
    var (rate, news) := NetworkFeeRate(cfg, estimate);
    var noted := NoteRate(s, news);
    NoteRateKeepsInv(s, news);
    var q := BoostRequest(cfg, SpeedupRecords(s), tip, rate);
    var given := if q.isRbf then Some(tip.FundingInputs()) else None;
    FundingPresent(s, tip.txid);
    InvParts(noted);
    FailedBuild(noted, cfg, b, q, given);
    FailedBuildSaysWhy(noted, cfg, b, q, given);
  }

  /** Step 5, exactly: without a due tip, or after a failed boost in the same tick, it does nothing; with one it adds a
      boost of that tip or says why it cannot; and it adds nothing else. */
  lemma BoostStep(s: State, cfg: Config, e: Event)
    requires Inv(s) && cfg.Valid() && Admissible(s, cfg, e) && e.BoostEvent?
    ensures var s' := Step(s, cfg, e);
      && (e.skipBoost || (forall t :: !BoostDue(s, cfg, e.height, t)) ==> s' == s)
      && (forall t :: !e.skipBoost && BoostDue(s, cfg, e.height, t) ==>
            Refused(s, s') || exists n :: BoostAdded(s, s', cfg, e.estimate, e.height, t, n))
      && (forall n :: n in s'.txs && n !in s.txs ==>
            !e.skipBoost && exists t :: BoostDue(s, cfg, e.height, t) && BoostAdded(s, s', cfg, e.estimate, e.height, t, n))
  {
    hide Inv, FreshBuilder, StaleTip, SpeedupRecords, BoostDue, BoostAdded, Refused;
    if !e.skipBoost && StaleTip(cfg, SpeedupRecords(s), e.height).Some? {
      StaleIsDue(s, cfg, e.height);
      forall t | BoostDue(s, cfg, e.height, t)
        ensures Refused(s, Step(s, cfg, e)) || exists n :: BoostAdded(s, Step(s, cfg, e), cfg, e.estimate, e.height, t, n)
      {
        DueBoost(s, cfg, e.builder, e.estimate, e.height, t);
      }
      var t :| BoostDue(s, cfg, e.height, t);
      forall n | n in Step(s, cfg, e).txs && n !in s.txs ensures BoostAdded(s, Step(s, cfg, e), cfg, e.estimate, e.height, t, n) {
        AddedOnly(s, Step(s, cfg, e), cfg, e.estimate, e.height, t, n);
      }
    } else if !e.skipBoost {
      forall t ensures !BoostDue(s, cfg, e.height, t) {
        if BoostDue(s, cfg, e.height, t) {
          DueIsStale(s, cfg, e.height, t);
        }
      }
    }
  }

  lemma AddedOnly(s: State, s': State, cfg: Config, estimate: Option<nat>, height: BlockHeight, t: Txid, n: Txid)
    requires Refused(s, s') || exists m :: BoostAdded(s, s', cfg, estimate, height, t, m)
    requires n in s'.txs && n !in s.txs
    ensures BoostAdded(s, s', cfg, estimate, height, t, n)
  {
    hide NewlyBuilt, BoostsTip, PaysRate, CapNoted;
  }

  lemma DueKeyed(s: State, cfg: Config, height: BlockHeight, t: Txid)
    requires Inv(s) && BoostDue(s, cfg, height, t)
    ensures t in s.txs && s.txs[t].txid == t && s.txs[t].kind.Speedup?
  {
    assert KeysOk(s);
    hide Inv, Masked;
  }

  lemma DueWaitsNot(s: State, cfg: Config, height: BlockHeight, t: Txid)
    requires BoostDue(s, cfg, height, t)
    ensures NothingWaits(s)
  {}

  lemma BoostInputs(s: State, cfg: Config, b: Builder, estimate: Option<nat>, tip: CoordinatedTx)
    requires Inv(s) && 0 < cfg.dustLimit && IsSpeedup(s, tip.txid) && s.txs[tip.txid] == tip
    ensures var q := BoostRequest(cfg, SpeedupRecords(s), tip, NetworkFeeRate(cfg, estimate).0);
            var built := BoostBuild(s, cfg, b, estimate, tip).1;
            built.Some? ==>
              if q.isRbf then tip.FundingInputs() <= built.value.fundingInputs
              else ChosenFunding(s).Some? && [ChosenFunding(s).value.0] <= built.value.fundingInputs
  {
    hide Inv, SpeedupRecords, BoostRequest, BuildSpeedup, ChosenFunding, NetworkFeeRate, SameCore;
    var (rate, news) := NetworkFeeRate(cfg, estimate);
    var noted := NoteRate(s, news);
    NoteRateKeepsInv(s, news);
    NotedReads(s, news);
    ChoiceIgnoresNews(s, noted);
    FundingPresent(s, tip.txid);
    BuiltPrefix(noted, cfg, b, BoostRequest(cfg, SpeedupRecords(s), tip, rate), tip);
  }
}

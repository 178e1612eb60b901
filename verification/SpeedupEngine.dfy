/** Steps 2, 4, 5 and 6 of a tick in their imperative form (src/engines/speedup_engine.rs). */
module SpeedupEngines {
  import opened Types
  import opened Oracles
  import States
  import Fees
  import Funding
  import Dispatching
  import Engines
  import Invariants
  import ReviewLaws
  import BatchLaws
  import opened Stores
  import opened Managers
  import opened Contexts
  import opened TransactionEngines

  class SpeedupEngine {
    const ctx: EngineContext

    constructor (ctx: EngineContext)
      ensures this.ctx == ctx
    {
      this.ctx := ctx;
    }

    // -------------------------------------------------------------- step 2

    /** Walks the `replaces` links down. On a well-formed store each link names an older record, so the walk ends
        without any bound of its own. */
    method RemoveReplacedRbf(tx: CoordinatedTx, height: BlockHeight)
      requires ctx.Valid() && Ranked(ctx.Value())
      modifies ctx.storage
      ensures ctx.Valid() && ctx.Value() == Engines.RemoveReplacedRbf(old(ctx.Value()), tx, height)
    {
      if !tx.IsRBF() {
        return;
      }
      hide States.SettleTx;
      var currentId := tx.kind.speedup.predecessor;
      var walking := true;
      while walking
        invariant ctx.Valid() && Ranked(ctx.Value())
        invariant walking ==> Engines.SettleReplacedChain(ctx.Value(), currentId, height)
                              == Engines.RemoveReplacedRbf(old(ctx.Value()), tx, height)
        invariant !walking ==> ctx.Value() == Engines.RemoveReplacedRbf(old(ctx.Value()), tx, height)
        decreases walking, Engines.Rank(ctx.Value(), currentId)
      {
        ghost var s := ctx.Value();
        var next: Option<Txid> := None;
        if currentId in ctx.storage.txs && ctx.storage.txs[currentId].IsRBF() {
          next := Some(ctx.storage.txs[currentId].kind.speedup.predecessor);
        }
        ctx.storage.SettleTx(currentId, Failed, height);
        SettleRanked(s, currentId, height);
        match next
        case Some(older) => currentId := older;
        case None => walking := false;
      }
    }

    method ReviewSpeedup(status: Txid -> ChainStatus, all: seq<CoordinatedTx>, tx: CoordinatedTx, height: BlockHeight)
      requires ctx.Valid() && Ranked(ctx.Value())
      modifies ctx.storage
      ensures ctx.Valid() && ctx.Value() == Engines.ReviewSpeedup(old(ctx.Value()), ctx.cfg, status, all, tx, height)
    {
      if !Engines.InFlight(tx) {
        return;
      }
      match status(tx.txid)
      case SeenInMempool =>
        if tx.state.Confirmed? {
          ctx.MarkReorg(tx, height);
        }
      case NotFound =>
        if !tx.HasLiveReplacement(all) {
          ctx.storage.RequeueNotFound(tx.txid, height + ctx.cfg.maxMonitoringConfirmations);
        }
      case Settled =>
        hide States.ReplaceFundingOnFinalize, Engines.RemoveReplacedRbf;
        ghost var s := ctx.Value();
        ctx.storage.SettleTx(tx.txid, Finalized, height);
        FinalizeRanked(s, tx.txid, height);
        RemoveReplacedRbf(tx, height);
        ctx.storage.ReplaceFundingOnFinalize(tx.txid);
      case Mined => ctx.storage.UpdateTxState(tx.txid, Confirmed);
      case Orphaned => ctx.storage.UpdateTxState(tx.txid, InMempool);
      case Unclear =>
    }

    /** Step 2. */
    method ReviewSpeedups(status: Txid -> ChainStatus, height: BlockHeight)
      requires ctx.Valid() && Invariants.Inv(ctx.Value())
      modifies ctx.storage
      ensures ctx.Valid() && ctx.Value() == Engines.ReviewSpeedups(old(ctx.Value()), ctx.cfg, status, height)
      ensures Invariants.Inv(ctx.Value())
    {
      hide Invariants.Inv, Engines.ReviewSpeedup, ReviewLaws.Reviewing, Ranked;
      var all := ctx.storage.GetSpeedupsOrdered();
      ReviewLaws.ReviewStarts(ctx.Value());
      ReviewLaws.ReviewSpeedupsKeepsInv(ctx.Value(), ctx.cfg, status, height);
      var i := 0;
      while i < |all|
        invariant 0 <= i <= |all| && ctx.Valid() && ReviewLaws.Reviewing(ctx.Value(), all, i)
        invariant Engines.ReviewSpeedupsFrom(ctx.Value(), ctx.cfg, status, all, i, height)
                  == Engines.ReviewSpeedups(old(ctx.Value()), ctx.cfg, status, height)
      {
        ReviewingRanked(ctx.Value(), all, i);
        ReviewLaws.ReviewSpeedupAdvances(ctx.Value(), ctx.cfg, status, all, i, height);
        ReviewSpeedup(status, all, all[i], height);
        i := i + 1;
      }
    }

    // -------------------------------------------------------------- step 4

    method DispatchPendingSpeedups(node: Node, retryReady: bool, height: BlockHeight) returns (boostFailed: bool)
      requires ctx.Valid()
      modifies ctx.storage
      ensures ctx.Valid()
      ensures ctx.Value() == Engines.DispatchPendingSpeedups(old(ctx.Value()), ctx.cfg, node, retryReady, height)
      ensures boostFailed == Engines.BoostFailed(old(ctx.Value()), ctx.Value(), retryReady)
    {
      hide Engines.HandleAll, Dispatching.DispatchAll, Filtered, States.Records, Engines.WaitingRecords, Dispatching.RetryFilter;
      var all := ctx.storage.GetSpeedupsOrdered();
      var pending := Filter(all, (r: CoordinatedTx) => r.state.ToDispatch?);
      WaitingIsFilter(all);
      var batch := Filter(pending, (r: CoordinatedTx) => r.retryCount == 0 || retryReady);
      RetryFilterIsFilter(pending, retryReady);
      assert batch == Engines.SpeedupBatch(ctx.Value(), retryReady);
      var results := ctx.Dispatch(node, batch);
      ctx.HandleAll(node, results, height, Engines.KeepFee);
      boostFailed := false;
      var i := 0;
      while i < |batch| && !boostFailed
        invariant 0 <= i <= |batch|
        invariant boostFailed ==> exists j :: 0 <= j < |batch| && IsFailedBoost(ctx.storage.txs, batch[j])
        invariant !boostFailed ==> forall j :: 0 <= j < i ==> !IsFailedBoost(ctx.storage.txs, batch[j])
      {
        boostFailed := IsFailedBoost(ctx.storage.txs, batch[i]);
        i := i + 1;
      }
    }

    // -------------------------------------------------------------- building

    method TotalAmount(us: seq<Utxo>) returns (total: nat)
      ensures total == Engines.TotalAmount(us)
    {
      total := 0;
      var i := 0;
      assert us[0..] == us;
      while i < |us|
        invariant 0 <= i <= |us|
        invariant total + Engines.TotalAmount(us[i..]) == Engines.TotalAmount(us)
      {
        assert us[i..][1..] == us[i + 1..];
        total := total + us[i].amount;
        i := i + 1;
      }
    }

    method BuildSpeedup(b: Builder, q: Engines.BuildRequest, rbfInputs: Option<seq<Utxo>>)
      returns (result: Option<Engines.BuildResult>)
      requires ctx.Valid()
      modifies ctx.storage
      ensures ctx.Valid() && (ctx.Value(), result) == Engines.BuildSpeedup(old(ctx.Value()), ctx.cfg, b, q, rbfInputs)
    {
      hide Engines.BuildLoop, Funding.GetFunding;
      if rbfInputs.Some? {
        var inputs := rbfInputs.value;
        var derived := false;
        if inputs != [] {
          derived := ctx.storage.IsSpeedupDerived(inputs[0].op);
        }
        result := BuildLoop(b, q, inputs, |inputs|, derived);
      } else {
        var chosen := ctx.fundingManager.GetFunding();
        if chosen.None? {
          ctx.storage.AddNews(FundingNotAvailable);
          return None;
        }
        result := BuildLoop(b, q, [chosen.value.0], 0, chosen.value.1);
      }
    }

    /** The loop ends: it adds a second input at most once, and between that the size only grows. */
    method BuildLoop(b: Builder, q: Engines.BuildRequest, given: seq<Utxo>, inherited: nat, primaryIsSpeedup: bool)
      returns (result: Option<Engines.BuildResult>)
      requires ctx.Valid() && inherited <= |given|
      modifies ctx.storage
      ensures ctx.Valid()
      ensures (ctx.Value(), result)
              == Engines.BuildLoop(old(ctx.Value()), ctx.cfg, b, q, given, inherited, primaryIsSpeedup, 0, 0)
    {
      hide Engines.BuildLoop, Fees.ComputeSpeedupFee, Fees.Sum, Funding.GetCombineFunding, Funding.ReleaseMarks;
      hide Engines.TotalAmount;
      var inputs := given;
      var childVsize: nat := 0;
      var calls: nat := 0;
      while true
        invariant ctx.Valid() && inherited <= |inputs| && childVsize <= MAX_SPEEDUP_VSIZE
        invariant Engines.BuildLoop(ctx.Value(), ctx.cfg, b, q, inputs, inherited, primaryIsSpeedup, childVsize, calls)
                  == Engines.BuildLoop(old(ctx.Value()), ctx.cfg, b, q, given, inherited, primaryIsSpeedup, 0, 0)
        decreases if |inputs| == 1 then 1 else 0, MAX_SPEEDUP_VSIZE - childVsize
      {
        BuildLoopStep(ctx.Value(), ctx.cfg, b, q, inputs, inherited, primaryIsSpeedup, childVsize, calls);
        var total := TotalAmount(inputs);
        var vsize := childVsize;
        if vsize == 0 {
          vsize := b.dummy(calls, inputs);
        }
        var fee, capped := ComputeSpeedupFee(ctx.cfg, q.parentVsizes, vsize, q.bump, q.feeRate, q.isRbf, q.chainDiff);
        if SaturatingSub(total, fee) < ctx.cfg.dustLimit {
          var extra: Option<Utxo> := None;
          if |inputs| == 1 && primaryIsSpeedup {
            extra := ctx.fundingManager.GetCombineFunding();
          }
          if extra.None? {
            ctx.fundingManager.ReleaseMarks(inputs[inherited..]);
            ctx.storage.AddNews(InsufficientFunds(total, fee + ctx.cfg.dustLimit));
            return None;
          }
          inputs := inputs + [extra.value];
          childVsize := 0;
        } else {
          var built := b.build(calls + 1, inputs, fee);
          if vsize >= built.tx.vsize {
            return Some(Engines.BuildResult(built.txid, built.tx, fee, capped, inputs, vsize));
          }
          childVsize := built.tx.vsize;
        }
        calls := calls + 2;
      }
    }

    method SaveSpeedup(r: CoordinatedTx)
      requires ctx.Valid() && r.kind.Speedup?
      modifies ctx.storage
      ensures ctx.Valid() && ctx.Value() == Engines.SaveSpeedup(old(ctx.Value()), r)
    {
      ctx.storage.InsertSpeedup(r, Engines.ChainOf(ctx.Value(), r.kind.speedup));
    }

    // -------------------------------------------------------------- step 5

    method LiveSpeedups(all: seq<CoordinatedTx>) returns (live: seq<CoordinatedTx>)
      ensures live == Engines.LiveInMempool(all, |all|)
    {
      live := Filter(all, (r: CoordinatedTx) => r.IsLiveInMempool(all));
      assert all[..|all|] == all;
      LiveIsFilter(all, |all|);
    }

    method FindStaleTip(all: seq<CoordinatedTx>, height: BlockHeight) returns (tip: Option<CoordinatedTx>)
      ensures tip == Engines.StaleTip(ctx.cfg, all, height)
    {
      hide Engines.LiveInMempool;
      var i := 0;
      while i < |all|
        invariant 0 <= i <= |all|
        invariant forall j :: 0 <= j < i ==> !all[j].state.ToDispatch?
      {
        if all[i].state.ToDispatch? {
          return None;
        }
        i := i + 1;
      }
      var live := LiveSpeedups(all);
      if live == [] {
        return None;
      }
      var last := live[|live| - 1];
      if last.broadcastBlockHeight.None? {
        return None;
      }
      if SaturatingSub(height, last.broadcastBlockHeight.value) < ctx.cfg.minBlocksBeforeResend {
        return None;
      }
      if last.feeInfo.packageFeeRate >= ctx.cfg.maxFeerate || !last.kind.Speedup? {
        return None;
      }
      return Some(last);
    }

    method BoostIfStale(b: Builder, estimate: Option<nat>, skipBoost: bool, height: BlockHeight)
      requires ctx.Valid()
      modifies ctx.storage
      ensures ctx.Valid()
      ensures ctx.Value() == Engines.BoostIfStale(old(ctx.Value()), ctx.cfg, b, estimate, skipBoost, height)
    {
      hide Engines.StaleTip, Engines.LiveInMempool, Engines.BuildSpeedup, Fees.NetworkFeeRate, Fees.ChainFeeDiff, States.Records;
      hide Engines.NewSpeedup, Engines.SaveSpeedup;
      if skipBoost {
        return;
      }
      var all := ctx.storage.GetSpeedupsOrdered();
      var stale := FindStaleTip(all, height);
      if stale.None? {
        return;
      }
      var tip := stale.value;
      TipIsSpeedup(ctx.cfg, all, height);
      var context := tip.kind.speedup.context;
      var live := LiveSpeedups(all);
      var useRbf := |live| >= ctx.cfg.maxUnconfirmedSpeedups;
      var networkRate, news := GetNetworkFeeRate(ctx.cfg, estimate);
      ghost var s := ctx.Value();
      ctx.storage.AddNewsIf(news);
      var rate := Fees.BoostFeeRate(networkRate, tip.feeInfo.packageFeeRate);
      var diff, _ := ChainFeeDiff(rate, live);
      var q := Engines.BuildRequest(if useRbf then context.parentVsizes else [], useRbf,
                                    context.bumpFeeUsed * ctx.cfg.bumpFeePercentage, rate, diff);
      assert q == Engines.BoostRequest(ctx.cfg, all, tip, networkRate);
      var given := if useRbf then Some(context.fundingInputs) else None;
      Engines.BuildKeepsInputs(ctx.Value(), ctx.cfg, b, q, given);
      var built := BuildSpeedup(b, q, given);
      if built.None? {
        return;
      }
      var r := Engines.NewSpeedup(built.value, q.parentVsizes, Engines.BoostKind(tip, q, built.value), height);
      BoostIsSpeedup(built.value, q, tip, height);
      SaveSpeedup(r);
      if built.value.capped {
        ctx.storage.AddNews(MaxFeeRateReached(r.txid, r.feeInfo.packageFeeRate));
        if useRbf && tip.txid in ctx.storage.txs {
          var p := ctx.storage.txs[tip.txid];
          ctx.storage.UpdateTx(p.(feeInfo := p.feeInfo.(packageFeeRate := ctx.cfg.maxFeerate)));
        }
      }
    }

    // -------------------------------------------------------------- step 6

    method CreateCpfpBatch(b: Builder, estimate: Option<nat>, height: BlockHeight)
      requires ctx.Valid()
      modifies ctx.storage
      ensures ctx.Valid()
      ensures ctx.Value() == Engines.CreateCpfpBatch(old(ctx.Value()), ctx.cfg, b, estimate, height)
    {
      hide Engines.LiveInMempool, Engines.BuildCpfp, Fees.NetworkFeeRate, Fees.ChainFeeDiff, States.Records, States.PendingParents;
      hide States.PrunePending, BatchLaws.Batches, BatchLaws.GoodBatches, Engines.FirstBatch, Engines.ParentVsizes;
      var parents := ctx.storage.GetPendingParents();
      if parents == [] {
        return;
      }
      PruneKeepsRecords(old(ctx.Value()));
      var all := ctx.storage.GetSpeedupsOrdered();
      var i := 0;
      while i < |all|
        invariant 0 <= i <= |all|
        invariant forall j :: 0 <= j < i ==> !all[j].state.ToDispatch?
      {
        if all[i].state.ToDispatch? {
          return;
        }
        i := i + 1;
      }
      var live := LiveSpeedups(all);
      if |live| >= ctx.cfg.maxUnconfirmedSpeedups {
        return;
      }
      var rate, news := GetNetworkFeeRate(ctx.cfg, estimate);
      ctx.storage.AddNewsIf(news);
      var diff, _ := ChainFeeDiff(rate, live);
      var batches := BatchLaws.BatchByWeight(ctx.cfg, parents, 1);
      OneBatch(ctx.cfg, parents);
      var batch := batches[0];
      var vsizes := VsizesOf(batch);
      if vsizes == [] {
        return;
      }
      BuildCpfp(b, Engines.BuildRequest(vsizes, false, ctx.cfg.baseFeeMultiplier, rate, diff), Engines.Txids(batch), height);
    }

    method VsizesOf(batch: seq<CoordinatedTx>) returns (vsizes: seq<nat>)
      ensures vsizes == Engines.ParentVsizes(batch)
    {
      hide Engines.ParentVsizes;
      vsizes := [];
      var i := 0;
      assert batch[0..] == batch;
      while i < |batch|
        invariant 0 <= i <= |batch|
        invariant vsizes + Engines.ParentVsizes(batch[i..]) == Engines.ParentVsizes(batch)
      {
        ParentVsizesStep(batch, i);
        if batch[i].kind.NeedsSpeedup? {
          vsizes := vsizes + [batch[i].tx.vsize];
        }
        i := i + 1;
      }
      ParentVsizesEnd(batch);
    }

    method BuildCpfp(b: Builder, q: Engines.BuildRequest, covered: seq<Txid>, height: BlockHeight)
      requires ctx.Valid()
      modifies ctx.storage
      ensures ctx.Valid() && ctx.Value() == Engines.BuildCpfp(old(ctx.Value()), ctx.cfg, b, q, covered, height)
    {
      hide Engines.BuildSpeedup, States.RemovePending, Engines.SaveSpeedup;
      var built := BuildSpeedup(b, q, None);
      if built.None? {
        return;
      }
      ctx.storage.RemovePendingParents(covered);
      var context := Engines.MakeContext(built.value.fundingInputs, q.bump, q.parentVsizes);
      var r := Engines.NewSpeedup(built.value, q.parentVsizes, CPFP(covered, context), height);
      if built.value.capped {
        ctx.storage.AddNews(MaxFeeRateReached(r.txid, r.feeInfo.packageFeeRate));
      }
      SaveSpeedup(r);
    }
  }

  // ---------------------------------------------------------------- facts the loops use

  /** One turn of the build loop. */
  lemma BuildLoopStep(s: States.State, cfg: Config, b: Builder, q: Engines.BuildRequest, inputs: seq<Utxo>, inherited: nat,
                      primaryIsSpeedup: bool, childVsize: nat, calls: nat)
    requires inherited <= |inputs| && childVsize <= MAX_SPEEDUP_VSIZE
    ensures var vsize: nat := if childVsize == 0 then b.dummy(calls, inputs) else childVsize;
            var (fee, capped) := Fees.ComputeSpeedupFee(cfg, Fees.Sum(q.parentVsizes), vsize, q.bump, q.feeRate, q.isRbf, q.chainDiff);
            var total := Engines.TotalAmount(inputs);
            var next := if |inputs| == 1 && primaryIsSpeedup then Funding.GetCombineFunding(s) else (s, None);
            var built := b.build(calls + 1, inputs, fee);
            Engines.BuildLoop(s, cfg, b, q, inputs, inherited, primaryIsSpeedup, childVsize, calls)
            == if SaturatingSub(total, fee) < cfg.dustLimit then
                 if next.1.Some? then
                   Engines.BuildLoop(next.0, cfg, b, q, inputs + [next.1.value], inherited, primaryIsSpeedup, 0, calls + 2)
                 else
                   (States.AddNews(Funding.ReleaseMarks(next.0, inputs[inherited..]), InsufficientFunds(total, fee + cfg.dustLimit)), None)
               else if vsize >= built.tx.vsize then
                 (s, Some(Engines.BuildResult(built.txid, built.tx, fee, capped, inputs, vsize)))
               else
                 Engines.BuildLoop(s, cfg, b, q, inputs, inherited, primaryIsSpeedup, built.tx.vsize, calls + 2)
  {
    hide Fees.ComputeSpeedupFee, Fees.Sum, Funding.GetCombineFunding, Funding.ReleaseMarks, Engines.TotalAmount;
  }

  /** Every stored `replaces` link leads to an older record. */
  ghost predicate Ranked(s: States.State) {
    forall t :: t in s.txs && s.txs[t].IsRBF() ==> Engines.Rank(s, s.txs[t].kind.speedup.predecessor) < Engines.Rank(s, t)
  }

  lemma SettleRanked(s: States.State, t: Txid, height: BlockHeight)
    requires Ranked(s)
    ensures Ranked(States.SettleTx(s, t, Failed, height)) && States.SettleTx(s, t, Failed, height).lineage == s.lineage
  {
    var s' := States.SettleTx(s, t, Failed, height);
    forall x | x in s'.txs && s'.txs[x].IsRBF()
      ensures Engines.Rank(s', s'.txs[x].kind.speedup.predecessor) < Engines.Rank(s', x)
    {
      assert x in s.txs && s.txs[x].kind == s'.txs[x].kind;
    }
  }

  lemma FinalizeRanked(s: States.State, t: Txid, height: BlockHeight)
    requires Ranked(s)
    ensures Ranked(States.SettleTx(s, t, Finalized, height))
  {
    var s' := States.SettleTx(s, t, Finalized, height);
    forall x | x in s'.txs && s'.txs[x].IsRBF()
      ensures Engines.Rank(s', s'.txs[x].kind.speedup.predecessor) < Engines.Rank(s', x)
    {
      assert x in s.txs && s.txs[x].kind == s'.txs[x].kind;
    }
  }

  /** Every reachable store is ranked. */
  lemma InvRanked(s: States.State)
    requires Invariants.Inv(s)
    ensures Ranked(s)
  {
    forall t | t in s.txs && s.txs[t].IsRBF()
      ensures Engines.Rank(s, s.txs[t].kind.speedup.predecessor) < Engines.Rank(s, t)
    {
      ReviewLaws.WalkDescends(s, t);
    }
  }

  lemma ReviewingRanked(s: States.State, all: seq<CoordinatedTx>, i: nat)
    requires i < |all| && ReviewLaws.Reviewing(s, all, i)
    ensures Ranked(s)
  {
    hide Invariants.Inv, Ranked;
    InvRanked(s);
  }

  predicate IsFailedBoost(txs: map<Txid, CoordinatedTx>, r: CoordinatedTx) {
    r.kind.Speedup? && r.kind.speedup.IsBoost() && r.txid in txs && txs[r.txid].state.Failed?
  }

  lemma TipIsSpeedup(cfg: Config, all: seq<CoordinatedTx>, height: BlockHeight)
    ensures Engines.StaleTip(cfg, all, height).Some? ==> Engines.StaleTip(cfg, all, height).value.kind.Speedup?
  {}

  lemma BoostIsSpeedup(x: Engines.BuildResult, q: Engines.BuildRequest, tip: CoordinatedTx, height: BlockHeight)
    requires tip.kind.Speedup? && (q.isRbf ==> |tip.FundingInputs()| <= |x.fundingInputs|)
    ensures Engines.NewSpeedup(x, q.parentVsizes, Engines.BoostKind(tip, q, x), height).kind.Speedup?
  {}

  lemma PruneKeepsRecords(s: States.State)
    ensures States.SpeedupRecords(States.PrunePending(s)) == States.SpeedupRecords(s)
  {}

  lemma OneBatch(cfg: Config, parents: seq<CoordinatedTx>)
    requires parents != []
    ensures BatchLaws.Batches(cfg, parents, 1) == [parents[..Engines.FirstBatch(cfg, parents, 0, 0)]]
  {}

  lemma ParentVsizesStep(batch: seq<CoordinatedTx>, i: nat)
    requires i < |batch|
    ensures Engines.ParentVsizes(batch[i..])
            == (if batch[i].kind.NeedsSpeedup? then [batch[i].tx.vsize] else []) + Engines.ParentVsizes(batch[i + 1..])
  {
    assert batch[i..][1..] == batch[i + 1..];
  }

  lemma ParentVsizesEnd(batch: seq<CoordinatedTx>)
    ensures Engines.ParentVsizes(batch[|batch|..]) == []
  {}
}

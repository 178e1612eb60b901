/** The six steps of a tick as functions of the state (src/engines/transaction_engine.rs,
    src/engines/speedup_engine.rs) and the client operations (src/coordinator.rs). */
module Engines {
  import opened Types
  import opened Oracles
  import opened States
  import opened Fees
  import opened Funding
  import opened Failures
  import opened Dispatching

  // ---------------------------------------------------------------- step 1: review of client transactions

  function MarkReorg(s: State, tx: CoordinatedTx, height: BlockHeight): State {
    Put(s, tx.txid, tx.(state := InMempool, broadcastBlockHeight := Some(height)))
  }

  function ReviewTransaction(s: State, cfg: Config, status: Txid -> ChainStatus, tx: CoordinatedTx,
                             height: BlockHeight): State
  {
    match status(tx.txid)
    case SeenInMempool =>
      if tx.state.Confirmed? then MarkReorg(s, tx, height)
      else if tx.IsStuckInMempool(height) then AddNews(s, TransactionStuckInMempool(tx.txid))
      else s
    case NotFound => RequeueNotFound(s, tx.txid, height + cfg.maxMonitoringConfirmations)
    case Settled => SettleTx(s, tx.txid, Finalized, height)
    case Mined => UpdateTxState(s, tx.txid, Confirmed)
    case Orphaned => UpdateTxState(s, tx.txid, InMempool)
    case Unclear => s
  }

  predicate InFlight(r: CoordinatedTx) {
    r.state.InMempool? || r.state.Confirmed?
  }

  function ReviewTransactions(s: State, cfg: Config, status: Txid -> ChainStatus, txs: seq<CoordinatedTx>,
                              height: BlockHeight): State
    decreases |txs|
  {
    if txs == [] then s
    else ReviewTransactions(ReviewTransaction(s, cfg, status, txs[0], height), cfg, status, txs[1..], height)
  }

  /** `order` is the order in which the store lists its records; the source leaves it unspecified. */
  function ReviewActive(s: State, cfg: Config, status: Txid -> ChainStatus, order: seq<Txid>, height: BlockHeight): State {
    var kept := EvictStaleTxs(s, height, cfg.maxTrackingConfirmations);
    ReviewTransactions(kept, cfg, status, ToReview(kept, order), height)
  }

  function ToReview(s: State, order: seq<Txid>): (rs: seq<CoordinatedTx>)
    ensures forall r :: r in rs ==> exists t :: t in order && t in s.txs && s.txs[t] == r && !r.kind.Speedup? && InFlight(r)
  {
    if order == [] then []
    else
      (if order[0] in s.txs && !s.txs[order[0]].kind.Speedup? && InFlight(s.txs[order[0]]) then [s.txs[order[0]]] else [])
      + ToReview(s, order[1..])
  }

  // ---------------------------------------------------------------- step 2: review of speedups

  function Rank(s: State, t: Txid): nat {
    if t in s.lineage then |s.lineage[t]| else 0
  }

  /** Walk the `replaces` chain downwards, settling every member. The rank test only makes the walk total:
      on a well-formed store it never stops the walk early. */
  function SettleReplacedChain(s: State, t: Txid, height: BlockHeight): State
    decreases Rank(s, t)
  {
    var settled := SettleTx(s, t, Failed, height);
    if t in s.txs && s.txs[t].IsRBF() && Rank(s, s.txs[t].kind.speedup.predecessor) < Rank(s, t) then
      SettleReplacedChain(settled, s.txs[t].kind.speedup.predecessor, height)
    else settled
  }

  function RemoveReplacedRbf(s: State, tx: CoordinatedTx, height: BlockHeight): State {
    if tx.IsRBF() then SettleReplacedChain(s, tx.kind.speedup.predecessor, height) else s
  }

  function FinalizeSpeedup(s: State, tx: CoordinatedTx, height: BlockHeight): State {
    var finalized := SettleTx(s, tx.txid, Finalized, height);
    ReplaceFundingOnFinalize(RemoveReplacedRbf(finalized, tx, height), tx.txid)
  }

  function ReviewSpeedup(s: State, cfg: Config, status: Txid -> ChainStatus, all: seq<CoordinatedTx>, tx: CoordinatedTx,
                         height: BlockHeight): State
  {
    if !InFlight(tx) then s
    else
      match status(tx.txid)
      case SeenInMempool => if tx.state.Confirmed? then MarkReorg(s, tx, height) else s
      case NotFound =>
        if tx.HasLiveReplacement(all) then s
        else RequeueNotFound(s, tx.txid, height + cfg.maxMonitoringConfirmations)
      case Settled => FinalizeSpeedup(s, tx, height)
      case Mined => UpdateTxState(s, tx.txid, Confirmed)
      case Orphaned => UpdateTxState(s, tx.txid, InMempool)
      case Unclear => s
  }

  function ReviewSpeedupsFrom(s: State, cfg: Config, status: Txid -> ChainStatus, all: seq<CoordinatedTx>, i: nat,
                              height: BlockHeight): State
    requires i <= |all|
    decreases |all| - i
  {
    if i == |all| then s
    else ReviewSpeedupsFrom(ReviewSpeedup(s, cfg, status, all, all[i], height), cfg, status, all, i + 1, height)
  }

  function ReviewSpeedups(s: State, cfg: Config, status: Txid -> ChainStatus, height: BlockHeight): State {
    ReviewSpeedupsFrom(s, cfg, status, SpeedupRecords(s), 0, height)
  }

  // ---------------------------------------------------------------- step 3: dispatch of client transactions

  function ReadyToDispatch(s: State, order: seq<Txid>, height: BlockHeight): (rs: seq<CoordinatedTx>)
    ensures forall r :: r in rs ==> exists t :: t in order && t in s.txs && s.txs[t] == r && !r.kind.Speedup? && r.state.ToDispatch?
  {
    if order == [] then []
    else
      (if order[0] in s.txs && !s.txs[order[0]].kind.Speedup? && s.txs[order[0]].state.ToDispatch?
          && s.txs[order[0]].IsReadyToDispatch(height) then [s.txs[order[0]]] else [])
      + ReadyToDispatch(s, order[1..], height)
  }

  function HandleAll(s: State, cfg: Config, node: Node, ds: seq<Dispatch>, height: BlockHeight,
                     fee: CoordinatedTx -> FeeInfo): State
    decreases |ds|
  {
    if ds == [] then s
    else HandleAll(HandleDispatchResult(s, cfg, node, ds[0], height, fee(ds[0].tx)), cfg, node, ds[1..], height, fee)
  }

  function NoteRate(s: State, news: Option<News>): State {
    if news.Some? then AddNews(s, news.value) else s
  }

  function DispatchPending(s: State, cfg: Config, node: Node, order: seq<Txid>, retryReady: bool, estimate: Option<nat>,
                           height: BlockHeight): State
  {
    var ready := ReadyToDispatch(s, order, height);
    if ready == [] then s
    else
      var (rate, news) := NetworkFeeRate(cfg, estimate);
      var noted := NoteRate(s, news);
      HandleAll(noted, cfg, node, DispatchAll(noted, cfg, node, RetryFilter(ready, retryReady)), height,
                (tx: CoordinatedTx) => ComputeFeeForTx(tx.tx, rate))
  }

  // ---------------------------------------------------------------- step 4: dispatch of speedups

  function WaitingRecords(all: seq<CoordinatedTx>): (rs: seq<CoordinatedTx>)
    ensures forall r :: r in rs <==> r in all && r.state.ToDispatch?
  {
    if all == [] then []
    else (if all[0].state.ToDispatch? then [all[0]] else []) + WaitingRecords(all[1..])
  }

  function SpeedupBatch(s: State, retryReady: bool): seq<CoordinatedTx> {
    RetryFilter(WaitingRecords(SpeedupRecords(s)), retryReady)
  }

  function KeepFee(tx: CoordinatedTx): FeeInfo {
    tx.feeInfo
  }

  function DispatchPendingSpeedups(s: State, cfg: Config, node: Node, retryReady: bool, height: BlockHeight): State {
    HandleAll(s, cfg, node, DispatchAll(s, cfg, node, SpeedupBatch(s, retryReady)), height, KeepFee)
  }

  /** A dispatched boost settled Failed: no further boost is built in this tick. */
  predicate BoostFailed(before: State, after: State, retryReady: bool) {
    var batch := SpeedupBatch(before, retryReady);
    exists i :: 0 <= i < |batch| && batch[i].kind.Speedup? && batch[i].kind.speedup.IsBoost()
                && batch[i].txid in after.txs && after.txs[batch[i].txid].state.Failed?
  }

  // ---------------------------------------------------------------- building a speedup

  /** `estimate` is the size the fee was computed for. */
  datatype BuildResult = BuildResult(txid: Txid, tx: SpeedupTx, fee: nat, capped: bool, fundingInputs: seq<Utxo>,
                                     estimate: nat)

  function TotalAmount(us: seq<Utxo>): nat {
    if us == [] then 0 else us[0].amount + TotalAmount(us[1..])
  }

  /** What a build is asked for. */
  datatype BuildRequest = BuildRequest(parentVsizes: seq<nat>, isRbf: bool, bump: real, feeRate: nat, chainDiff: nat)

  /** The build loop: `inherited` inputs are not this call's to release. `childVsize == 0` means not yet measured. */
  function BuildLoop(s: State, cfg: Config, b: Builder, q: BuildRequest, inputs: seq<Utxo>, inherited: nat,
                     primaryIsSpeedup: bool, childVsize: nat, calls: nat): (State, Option<BuildResult>)
    requires inherited <= |inputs| && childVsize <= MAX_SPEEDUP_VSIZE
    decreases if |inputs| == 1 then 1 else 0, MAX_SPEEDUP_VSIZE - childVsize
  {
    var vsize: nat := if childVsize == 0 then b.dummy(calls, inputs) else childVsize;
    var (fee, capped) := ComputeSpeedupFee(cfg, Sum(q.parentVsizes), vsize, q.bump, q.feeRate, q.isRbf, q.chainDiff);
    var total := TotalAmount(inputs);
    if SaturatingSub(total, fee) < cfg.dustLimit then
      var (s', extra) := if |inputs| == 1 && primaryIsSpeedup then GetCombineFunding(s) else (s, None);
      if extra.Some? then BuildLoop(s', cfg, b, q, inputs + [extra.value], inherited, primaryIsSpeedup, 0, calls + 2)
      else (AddNews(ReleaseMarks(s', inputs[inherited..]), InsufficientFunds(total, fee + cfg.dustLimit)), None)
    else
      var built := b.build(calls + 1, inputs, fee);
      if vsize >= built.tx.vsize then (s, Some(BuildResult(built.txid, built.tx, fee, capped, inputs, vsize)))
      else BuildLoop(s, cfg, b, q, inputs, inherited, primaryIsSpeedup, built.tx.vsize, calls + 2)
  }

  /** `rbfInputs` is the predecessor's funding for an RBF and `None` for a CPFP. */
  function BuildSpeedup(s: State, cfg: Config, b: Builder, q: BuildRequest, rbfInputs: Option<seq<Utxo>>):
    (State, Option<BuildResult>)
  {
    match rbfInputs
    case Some(inputs) =>
      BuildLoop(s, cfg, b, q, inputs, |inputs|, inputs != [] && IsSpeedupDerived(s, inputs[0].op), 0, 0)
    case None =>
      var (s', chosen) := GetFunding(s);
      if chosen.None? then (AddNews(s', FundingNotAvailable), None)
      else BuildLoop(s', cfg, b, q, [chosen.value.0], 0, chosen.value.1, 0, 0)
  }

  function MakeContext(inputs: seq<Utxo>, bump: real, parentVsizes: seq<nat>): SpeedupContext {
    SpeedupContext(inputs, None, bump, parentVsizes, false)
  }

  function NewSpeedup(b: BuildResult, parentVsizes: seq<nat>, kind: SpeedupKind, height: BlockHeight): CoordinatedTx {
    CoordinatedTx(b.txid, b.tx, Speedup(kind), ToDispatch, height, None, None, None, None, 0,
                  FeeInfoForPaidSpeedup(b.tx, b.fee, Sum(parentVsizes)))
  }

  /** The history variable of a new speedup: the chain it replaces. */
  function ChainOf(s: State, kind: SpeedupKind): seq<Txid> {
    match kind
    case CPFP(_, _) => []
    case RBF(p, _, _) => (if p in s.lineage then s.lineage[p] else []) + [p]
  }

  function SaveSpeedup(s: State, r: CoordinatedTx): State
    requires r.kind.Speedup?
  {
    InsertSpeedup(s, r, ChainOf(s, r.kind.speedup))
  }

  // ---------------------------------------------------------------- step 5: boost

  function LiveInMempool(all: seq<CoordinatedTx>, n: nat): (rs: seq<CoordinatedTx>)
    requires n <= |all|
    ensures forall r :: r in rs <==> exists i :: 0 <= i < n && all[i] == r && r.IsLiveInMempool(all)
  {
    if n == 0 then []
    else LiveInMempool(all, n - 1) + (if all[n - 1].IsLiveInMempool(all) then [all[n - 1]] else [])
  }

  predicate AnyWaiting(all: seq<CoordinatedTx>) {
    exists i :: 0 <= i < |all| && all[i].state.ToDispatch?
  }

  /** The tip a boost would act on: the latest live speedup, stale and still below the cap. */
  function StaleTip(cfg: Config, all: seq<CoordinatedTx>, height: BlockHeight): Option<CoordinatedTx> {
    var live := LiveInMempool(all, |all|);
    if AnyWaiting(all) || live == [] then None
    else
      var last := live[|live| - 1];
      if last.broadcastBlockHeight.None? then None
      else if SaturatingSub(height, last.broadcastBlockHeight.value) < cfg.minBlocksBeforeResend then None
      else if last.feeInfo.packageFeeRate >= cfg.maxFeerate then None
      else if !last.kind.Speedup? then None
      else Some(last)
  }

  predicate UseRbf(cfg: Config, all: seq<CoordinatedTx>) {
    |LiveInMempool(all, |all|)| >= cfg.maxUnconfirmedSpeedups
  }

  function BoostRequest(cfg: Config, all: seq<CoordinatedTx>, tip: CoordinatedTx, networkRate: nat): BuildRequest
    requires tip.kind.Speedup?
  {
    var rbf := UseRbf(cfg, all);
    var rate := BoostFeeRate(networkRate, tip.feeInfo.packageFeeRate);
    BuildRequest(if rbf then tip.kind.speedup.context.parentVsizes else [], rbf,
                 tip.kind.speedup.context.bumpFeeUsed * cfg.bumpFeePercentage, rate,
                 ChainFeeDiff(rate, LiveInMempool(all, |all|)))
  }

  function BoostKind(tip: CoordinatedTx, q: BuildRequest, b: BuildResult): SpeedupKind
    requires tip.kind.Speedup?
    requires q.isRbf ==> |tip.FundingInputs()| <= |b.fundingInputs|
  {
    var context := MakeContext(b.fundingInputs, q.bump, q.parentVsizes);
    if q.isRbf then RBF(tip.txid, b.fundingInputs[|tip.FundingInputs()|..], context) else CPFP([tip.txid], context)
  }

  /** A capped RBF may be rejected by the node, so its predecessor is marked at the cap as well. */
  function NoteCap(s: State, cfg: Config, tip: CoordinatedTx, r: CoordinatedTx, q: BuildRequest, capped: bool): State {
    if !capped then s
    else
      var noted := AddNews(s, MaxFeeRateReached(r.txid, r.feeInfo.packageFeeRate));
      if q.isRbf && tip.txid in noted.txs then
        var p := noted.txs[tip.txid];
        Put(noted, tip.txid, p.(feeInfo := p.feeInfo.(packageFeeRate := cfg.maxFeerate)))
      else noted
  }

  /** What a boost of `tip` asks for and gets. */
  function BoostBuild(s: State, cfg: Config, b: Builder, estimate: Option<nat>, tip: CoordinatedTx):
    (State, Option<BuildResult>)
    requires tip.kind.Speedup?
  {
    var (rate, news) := NetworkFeeRate(cfg, estimate);
    var q := BoostRequest(cfg, SpeedupRecords(s), tip, rate);
    BuildSpeedup(NoteRate(s, news), cfg, b, q, if q.isRbf then Some(tip.FundingInputs()) else None)
  }

  function BoostIfStale(s: State, cfg: Config, b: Builder, estimate: Option<nat>, skipBoost: bool, height: BlockHeight): State {
    var all := SpeedupRecords(s);
    var tip := StaleTip(cfg, all, height);
    if skipBoost || tip.None? then s
    else
      var (rate, news) := NetworkFeeRate(cfg, estimate);
      var q := BoostRequest(cfg, all, tip.value, rate);
      var (s', built) := BoostBuild(s, cfg, b, estimate, tip.value);
      BuildKeepsInputs(NoteRate(s, news), cfg, b, q, if q.isRbf then Some(tip.value.FundingInputs()) else None);
      if built.None? then s'
      else
        var r := NewSpeedup(built.value, q.parentVsizes, BoostKind(tip.value, q, built.value), height);
        NoteCap(SaveSpeedup(s', r), cfg, tip.value, r, q, built.value.capped)
  }

  /** Whatever the loop does, the inputs it started from stay a prefix of the result's inputs. */
  lemma {:induction false} BuildLoopKeepsInputs(s: State, cfg: Config, b: Builder, q: BuildRequest, inputs: seq<Utxo>,
                                                inherited: nat, primaryIsSpeedup: bool, childVsize: nat, calls: nat)
    requires inherited <= |inputs| && childVsize <= MAX_SPEEDUP_VSIZE
    ensures var r := BuildLoop(s, cfg, b, q, inputs, inherited, primaryIsSpeedup, childVsize, calls).1;
            r.Some? ==> inputs <= r.value.fundingInputs
    decreases if |inputs| == 1 then 1 else 0, MAX_SPEEDUP_VSIZE - childVsize
  {
    var vsize: nat := if childVsize == 0 then b.dummy(calls, inputs) else childVsize;
    var (fee, capped) := ComputeSpeedupFee(cfg, Sum(q.parentVsizes), vsize, q.bump, q.feeRate, q.isRbf, q.chainDiff);
    if SaturatingSub(TotalAmount(inputs), fee) < cfg.dustLimit {
      var (s', extra) := if |inputs| == 1 && primaryIsSpeedup then GetCombineFunding(s) else (s, None);
      if extra.Some? {
        BuildLoopKeepsInputs(s', cfg, b, q, inputs + [extra.value], inherited, primaryIsSpeedup, 0, calls + 2);
      }
    } else {
      var built := b.build(calls + 1, inputs, fee);
      if vsize < built.tx.vsize {
        BuildLoopKeepsInputs(s, cfg, b, q, inputs, inherited, primaryIsSpeedup, built.tx.vsize, calls + 2);
      }
    }
  }

  lemma BuildKeepsInputs(s: State, cfg: Config, b: Builder, q: BuildRequest, rbfInputs: Option<seq<Utxo>>)
    ensures var r := BuildSpeedup(s, cfg, b, q, rbfInputs).1;
            rbfInputs.Some? && r.Some? ==> rbfInputs.value <= r.value.fundingInputs
  {
    if rbfInputs.Some? {
      var inputs := rbfInputs.value;
      BuildLoopKeepsInputs(s, cfg, b, q, inputs, |inputs|, inputs != [] && IsSpeedupDerived(s, inputs[0].op), 0, 0);
    }
  }

  // ---------------------------------------------------------------- step 6: first CPFP

  /** Length of the first weight batch: it takes at least one parent and stops before overflowing the limit. */
  function FirstBatch(cfg: Config, parents: seq<CoordinatedTx>, taken: nat, weight: nat): (n: nat)
    requires taken <= |parents|
    ensures taken <= n <= |parents|
    ensures parents != [] ==> 0 < n
    decreases |parents| - taken
  {
    if taken == |parents| then taken
    else if taken > 0 && weight + parents[taken].tx.weight > cfg.maxTxWeight then taken
    else FirstBatch(cfg, parents, taken + 1, weight + parents[taken].tx.weight)
  }

  /** The vsizes of the batch members that carry speedup data. */
  function ParentVsizes(batch: seq<CoordinatedTx>): seq<nat> {
    if batch == [] then []
    else (if batch[0].kind.NeedsSpeedup? then [batch[0].tx.vsize] else []) + ParentVsizes(batch[1..])
  }

  function Txids(rs: seq<CoordinatedTx>): (ts: seq<Txid>)
    ensures |ts| == |rs| && forall i :: 0 <= i < |rs| ==> ts[i] == rs[i].txid
  {
    if rs == [] then [] else [rs[0].txid] + Txids(rs[1..])
  }

  /** Build and save one CPFP covering `covered`; nothing but news changes when the build fails. */
  function BuildCpfp(s: State, cfg: Config, b: Builder, q: BuildRequest, covered: seq<Txid>, height: BlockHeight): State {
    var (s', built) := BuildSpeedup(s, cfg, b, q, None);
    if built.None? then s'
    else
      var context := MakeContext(built.value.fundingInputs, q.bump, q.parentVsizes);
      var r := NewSpeedup(built.value, q.parentVsizes, CPFP(covered, context), height);
      var taken := RemovePending(s', Elements(covered));
      var capped := if built.value.capped then AddNews(taken, MaxFeeRateReached(r.txid, r.feeInfo.packageFeeRate)) else taken;
      SaveSpeedup(capped, r)
  }

  function CpfpRequest(cfg: Config, all: seq<CoordinatedTx>, vsizes: seq<nat>, rate: nat): BuildRequest {
    BuildRequest(vsizes, false, cfg.baseFeeMultiplier, rate, ChainFeeDiff(rate, LiveInMempool(all, |all|)))
  }

  predicate SlotFree(cfg: Config, all: seq<CoordinatedTx>) {
    !AnyWaiting(all) && |LiveInMempool(all, |all|)| < cfg.maxUnconfirmedSpeedups
  }

  function CreateCpfpBatch(s: State, cfg: Config, b: Builder, estimate: Option<nat>, height: BlockHeight): State {
    var pruned := PrunePending(s);
    var parents := PendingParents(s, s.psp);
    var all := SpeedupRecords(s);
    if parents == [] || !SlotFree(cfg, all) then pruned
    else
      var (rate, news) := NetworkFeeRate(cfg, estimate);
      var batch := parents[..FirstBatch(cfg, parents, 0, 0)];
      var vsizes := ParentVsizes(batch);
      var noted := NoteRate(pruned, news);
      if vsizes == [] then noted
      else BuildCpfp(noted, cfg, b, CpfpRequest(cfg, all, vsizes, rate), Txids(batch), height)
  }

  // ---------------------------------------------------------------- client operations

  datatype Registration = Registration(txid: Txid, tx: Transaction, needsSpeedup: bool, target: Option<BlockHeight>,
                                       stuckInMempoolBlocks: Option<nat>)

  function Register(s: State, cfg: Config, g: Registration, estimate: Option<nat>, height: BlockHeight): State {
    if g.txid in s.txs then s
    else
      var (rate, _) := NetworkFeeRate(cfg, estimate);
      var r := CoordinatedTx(g.txid, g.tx, if g.needsSpeedup then NeedsSpeedup else Normal, ToDispatch,
                             if g.target.Some? then g.target.value else height, g.stuckInMempoolBlocks, None, None, None, 0,
                             ComputeFeeForTx(g.tx, rate));
      var inserted := Put(s, g.txid, r);
      if g.needsSpeedup then AddPendingParent(inserted, g.txid) else inserted
  }

  function AddFunding(s: State, cfg: Config, utxo: Utxo): State {
    if utxo.amount < cfg.minFundingAmount then AddNews(s, InvalidFundingUtxo(utxo.amount, cfg.minFundingAmount))
    else AppendFunding(s, utxo)
  }

  predicate Cancellable(s: State, t: Txid) {
    t in s.txs && !s.txs[t].kind.Speedup? && s.txs[t].state.ToDispatch?
  }

  function Eligible(s: State, txids: seq<Txid>): (r: set<Txid>)
    ensures forall t :: t in r <==> t in txids && Cancellable(s, t)
  {
    set t | t in txids && Cancellable(s, t)
  }

  function RefusalNews(s: State, txids: seq<Txid>): (r: set<News>)
    ensures forall n :: n in r <==> n.InvalidCancel? && n.txid in txids && !Cancellable(s, n.txid)
  {
    set t | t in txids && !Cancellable(s, t) :: InvalidCancel(t)
  }

  function Cancel(s: State, txids: seq<Txid>): State {
    var eligible := Eligible(s, txids);
    RemoveTxs(RemovePending(s.(news := s.news + RefusalNews(s, txids)), eligible), eligible)
  }
}

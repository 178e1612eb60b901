/** The persisted state and the storage transitions as functions of it (src/core/storage.rs).

    `lineage` is a history variable: for every speedup ever built it lists, oldest first, the chain of
    speedups it replaced. No transition reads it. */
module States {
  import opened Types

  datatype State = State(
    txs: map<Txid, CoordinatedTx>,
    speedups: seq<Txid>,
    psp: seq<Txid>,
    queue: seq<OutPoint>,
    funding: map<OutPoint, FundingData>,
    news: set<News>,
    lineage: map<Txid, seq<Txid>>)

  const EMPTY := State(map[], [], [], [], map[], {}, map[])

  // ---------------------------------------------------------------- records

  function Put(s: State, t: Txid, r: CoordinatedTx): State {
    s.(txs := s.txs[t := r])
  }

  function AddNews(s: State, n: News): State {
    s.(news := s.news + {n})
  }

  /** Guard shared by every checked transition: the record exists and the edge is allowed. */
  function RejectionNews(s: State, t: Txid, next: TransactionState): Option<News> {
    if t !in s.txs then Some(TxNotFound(t))
    else if !s.txs[t].state.CanTransitionTo(next) then Some(InvalidStateTransition(t, s.txs[t].state, next))
    else None
  }

  function UpdateTxState(s: State, t: Txid, next: TransactionState): State {
    var rejection := RejectionNews(s, t, next);
    if rejection.Some? then AddNews(s, rejection.value)
    else Put(s, t, s.txs[t].(state := next))
  }

  function SettleTx(s: State, t: Txid, next: TransactionState, height: BlockHeight): State {
    var rejection := RejectionNews(s, t, next);
    if rejection.Some? then AddNews(s, rejection.value)
    else Put(s, t, s.txs[t].(state := next, settledBlockHeight := Some(height)))
  }

  /** Re-queue after `not_found`; the fail guard is anchored at the first one. */
  function RequeueNotFound(s: State, t: Txid, deadline: BlockHeight): State {
    var rejection := RejectionNews(s, t, ToDispatch);
    if rejection.Some? then AddNews(s, rejection.value)
    else
      var r := s.txs[t];
      Put(s, t, r.(state := ToDispatch,
                   failGuardUntil := if r.failGuardUntil.Some? then r.failGuardUntil else Some(deadline)))
  }

  function MarkAsRetry(s: State, t: Txid): State {
    var rejection := RejectionNews(s, t, ToDispatch);
    if rejection.Some? then AddNews(s, rejection.value)
    else Put(s, t, s.txs[t].(state := ToDispatch, retryCount := s.txs[t].retryCount + 1))
  }

  function RemoveTxs(s: State, gone: set<Txid>): State {
    s.(txs := s.txs - gone, speedups := Excluding(s.speedups, gone))
  }

  // ---------------------------------------------------------------- eviction

  /** The parents some non-terminal CPFP of the SpeedupList covers. */
  function LiveCovered(s: State): set<Txid> {
    var all := SpeedupRecords(s);
    set i, p | 0 <= i < |all| && !all[i].state.Terminal() && p in all[i].Parents() :: p
  }

  predicate Evictable(s: State, t: Txid, height: BlockHeight, maxTracking: nat) {
    && t in s.txs
    && s.txs[t].state.Terminal()
    && s.txs[t].settledBlockHeight.Some?
    && SaturatingSub(height, s.txs[t].settledBlockHeight.value) >= maxTracking
    && !(s.txs[t].kind.NeedsSpeedup? && (t in s.psp || t in LiveCovered(s)))
  }

  function StaleTxs(s: State, height: BlockHeight, maxTracking: nat): (gone: set<Txid>)
    ensures forall t :: t in gone <==> Evictable(s, t, height, maxTracking)
  {
    set t | t in s.txs && Evictable(s, t, height, maxTracking)
  }

  function EvictionNews(gone: set<Txid>): (news: set<News>)
    ensures forall n :: n in news <==> n.TransactionEvicted? && n.txid in gone
  {
    set t | t in gone :: TransactionEvicted(t)
  }

  function Evict(s: State, gone: set<Txid>): State {
    RemoveTxs(s, gone).(news := s.news + EvictionNews(gone))
  }

  function EvictStaleTxs(s: State, height: BlockHeight, maxTracking: nat): State {
    Evict(s, StaleTxs(s, height, maxTracking))
  }

  // ---------------------------------------------------------------- SpeedupList

  function InsertSpeedup(s: State, r: CoordinatedTx, chain: seq<Txid>): State {
    s.(txs := s.txs[r.txid := r],
       speedups := if r.txid in s.speedups then s.speedups else s.speedups + [r.txid],
       lineage := s.lineage[r.txid := chain])
  }

  function Records(txs: map<Txid, CoordinatedTx>, ids: seq<Txid>): (rs: seq<CoordinatedTx>)
    ensures forall r :: r in rs ==> exists t :: t in ids && t in txs && txs[t] == r
    ensures forall t :: t in ids && t in txs ==> txs[t] in rs
  {
    if ids == [] then []
    else (if ids[0] in txs then [txs[ids[0]]] else []) + Records(txs, ids[1..])
  }

  /** Speedups in creation order, oldest first. */
  function SpeedupRecords(s: State): seq<CoordinatedTx> {
    Records(s.txs, s.speedups)
  }

  // ---------------------------------------------------------------- PendingSpeedupParents

  function AddPendingParent(s: State, t: Txid): State {
    if t in s.psp then s else s.(psp := s.psp + [t])
  }

  function PrependPending(s: State, ts: seq<Txid>): State {
    s.(psp := Excluding(ts, Elements(s.psp)) + s.psp)
  }

  function RemovePending(s: State, gone: set<Txid>): State {
    s.(psp := Excluding(s.psp, gone))
  }

  predicate Prunable(s: State, t: Txid) {
    t !in s.txs || s.txs[t].state.Failed?
  }

  function PrunePending(s: State): State {
    RemovePending(s, set t | t in s.psp && Prunable(s, t))
  }

  /** The parents ready for a CPFP: broadcast and not settled Failed, in queue order. */
  function PendingParents(s: State, ids: seq<Txid>): (rs: seq<CoordinatedTx>) {
    if ids == [] then []
    else
      (if ids[0] in s.txs && s.txs[ids[0]].state.OnNode() then [s.txs[ids[0]]] else []) + PendingParents(s, ids[1..])
  }

  /** The listed txids whose stored record still needs a speedup. */
  function StillNeedSpeedup(s: State, ts: seq<Txid>): (r: seq<Txid>)
    ensures forall t :: t in r <==> t in ts && t in s.txs && s.txs[t].kind.NeedsSpeedup?
  {
    if ts == [] then []
    else
      (if ts[0] in s.txs && s.txs[ts[0]].kind.NeedsSpeedup? then [ts[0]] else []) + StillNeedSpeedup(s, ts[1..])
  }

  function RequeueProtocolParents(s: State, failed: CoordinatedTx): State {
    PrependPending(s, StillNeedSpeedup(s, failed.Parents()))
  }

  // ---------------------------------------------------------------- funding queue

  predicate IsSpeedupDerived(s: State, op: OutPoint) {
    if op in s.funding then s.funding[op].fromSpeedup
    else op.txid in s.txs && s.txs[op.txid].kind.Speedup?
  }

  function AppendFunding(s: State, utxo: Utxo): State {
    s.(funding := s.funding[utxo.op := FundingData(utxo, false, false)],
       queue := if utxo.op in s.queue then s.queue else s.queue + [utxo.op])
  }

  /** The queue record wins over the live chain tip of the same txid. */
  function SetSpent(s: State, op: OutPoint, spent: bool): State {
    if op in s.funding then
      s.(funding := s.funding[op := s.funding[op].(spent := spent)])
    else if op.txid in s.txs && s.txs[op.txid].kind.Speedup? then
      var r := s.txs[op.txid];
      Put(s, op.txid, r.WithContext(r.kind.speedup.context.(spent := spent)))
    else s
  }

  /** Smallest index of a member of `ops`, or the length when there is none. */
  function FirstIn(queue: seq<OutPoint>, ops: set<OutPoint>): (i: nat)
    ensures i <= |queue|
    ensures i < |queue| ==> queue[i] in ops
    ensures forall j :: 0 <= j < i ==> queue[j] !in ops
  {
    if queue == [] || queue[0] in ops then 0 else 1 + FirstIn(queue[1..], ops)
  }

  function SwapFunding(s: State, t: Txid, r: CoordinatedTx, consumed: set<OutPoint>, pos: nat): State
    requires r.tx.outputs != []
  {
    var rest := Excluding(s.queue, consumed);
    var record := FundingData(r.ChangeUtxo(), r.IsSpent(), true);
    s.(funding := (s.funding - (Elements(s.queue) * consumed))[r.ChangeOp() := record],
       queue := if pos <= |rest| then rest[..pos] + [r.ChangeOp()] + rest[pos..] else rest + [r.ChangeOp()],
       speedups := Excluding(s.speedups, {t}))
  }

  /** A finalized speedup's change takes the slot of the first funding record it consumed. */
  function ReplaceFundingOnFinalize(s: State, t: Txid): State {
    if t !in s.txs || !s.txs[t].kind.Speedup? || s.txs[t].tx.outputs == [] then s
    else
      var r := s.txs[t];
      var consumed := Ops(r.FundingInputs());
      var pos := FirstIn(s.queue, consumed);
      if pos == |s.queue| then s else SwapFunding(s, t, r, consumed, pos)
  }
}

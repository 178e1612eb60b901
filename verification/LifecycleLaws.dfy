/** Lifecycle safety and the reorg-flap guard, step by step: every record moves along allowed edges only, even
    through the writes that bypass the check, and an armed guard keeps its deadline. */
module LifecycleLaws {
  import opened Types
  import opened Oracles
  import Fees
  import opened States
  import opened Funding
  import opened Failures
  import opened Dispatching
  import opened Engines
  import opened FeeLaws
  import opened Invariants
  import opened Evolution
  import opened FailureLaws
  import opened CascadeLaws
  import opened GrowthLaws
  import opened BuildLaws
  import opened ReviewLaws
  import opened DispatchLaws
  import opened OutcomeLaws
  import opened CreationLaws
  import opened Runs
  import opened EventOutcomes
  import opened ClientReviews
  import opened LifeLaws

  // ---------------------------------------------------------------- how one record may move

  /** A speedup's fee, and what it was computed from, stay. */
  predicate SamePrice(a: CoordinatedTx, b: CoordinatedTx) {
    b.kind.Speedup? == a.kind.Speedup? && (a.kind.Speedup? ==> b.feeInfo == a.feeInfo && SamePricing(a, b))
  }

  /** Nothing changes but marks; a package rate may be raised to the cap. */
  predicate Still(a: CoordinatedTx, b: CoordinatedTx, cap: nat) {
    && b.tx == a.tx
    && b.kind.Speedup? == a.kind.Speedup?
    && b.state == a.state
    && b.failGuardUntil == a.failGuardUntil
    && b.broadcastBlockHeight == a.broadcastBlockHeight
    && b.retryCount == a.retryCount
    && SamePricing(a, b)
    && (b.feeInfo == a.feeInfo || b.feeInfo == a.feeInfo.(packageFeeRate := cap))
  }

  /** A dispatch step moves waiting records only, and drops a guard only by taking the record live. */
  predicate DispatchMove(a: CoordinatedTx, b: CoordinatedTx) {
    && b.tx == a.tx
    && SamePrice(a, b)
    && a.state.CanTransitionTo(b.state)
    && (!a.state.ToDispatch? ==> b.state == a.state && b.failGuardUntil == a.failGuardUntil)
    && (b.failGuardUntil == a.failGuardUntil || (b.failGuardUntil.None? && b.state.OnNode()))
  }

  /** Reviewing one transaction follows one edge and arms a guard only where there is none. */
  predicate ReviewMove(a: CoordinatedTx, b: CoordinatedTx, deadline: BlockHeight) {
    && b.tx == a.tx
    && SamePrice(a, b)
    && a.state.CanTransitionTo(b.state)
    && (b.failGuardUntil == a.failGuardUntil
        || (a.failGuardUntil.None? && b.failGuardUntil == Some(deadline) && b.state.ToDispatch?))
  }

  /** At most two edges in a row: a reorged speedup may be settled by the finalization of its replacement. */
  predicate EdgePath(a: TransactionState, b: TransactionState) {
    a.CanTransitionTo(b) || (a.CanTransitionTo(InMempool) && InMempool.CanTransitionTo(b))
  }

  predicate ReviewPath(a: CoordinatedTx, b: CoordinatedTx, deadline: BlockHeight) {
    && b.tx == a.tx
    && SamePrice(a, b)
    && EdgePath(a.state, b.state)
    && (b.failGuardUntil == a.failGuardUntil || (a.failGuardUntil.None? && b.failGuardUntil == Some(deadline)))
  }

  ghost predicate AllStill(s: State, s': State, cap: nat) {
    forall t :: t in s.txs ==> t in s'.txs && Still(s.txs[t], s'.txs[t], cap)
  }

  ghost predicate ReviewMoves(s: State, s': State, deadline: BlockHeight) {
    s'.txs.Keys == s.txs.Keys && forall t :: t in s.txs ==> ReviewMove(s.txs[t], s'.txs[t], deadline)
  }

  ghost predicate ReviewPaths(s: State, s': State, deadline: BlockHeight) {
    s'.txs.Keys == s.txs.Keys && forall t :: t in s.txs ==> ReviewPath(s.txs[t], s'.txs[t], deadline)
  }

  /** Two edges reach everything a path of edges reaches: only terminal states are never left. */
  lemma EdgePathIsClosure(a: TransactionState, b: TransactionState)
    ensures EdgePath(a, b) <==> (a.Terminal() ==> b == a)
  {}

  // ---------------------------------------------------------------- dispatch steps

  lemma InvKeys(s: State)
    requires Inv(s)
    ensures KeysOk(s)
  {}

  lemma BatchStored(s: State, retryReady: bool, d: CoordinatedTx)
    requires Inv(s) && d in SpeedupBatch(s, retryReady)
    ensures d.txid in s.txs && s.txs[d.txid] == d && d.kind.Speedup?
  {
    hide Inv;
    InvParts(s);
    assert d in SpeedupRecords(s);
  }

  lemma ClientEventHasClients(s: State, cfg: Config, e: Event, i: nat)
    requires Inv(s) && Admissible(s, cfg, e) && e.DispatchClientsEvent? && i < |Outcomes(s, cfg, e)|
    ensures !Outcomes(s, cfg, e)[i].tx.kind.Speedup?
  {
    hide Inv, NoDup, ClientOutcomes;
    ClientItems(s, cfg, e.node, e.order, e.retryReady, e.height);
    assert ClientSnapshot(s, Outcomes(s, cfg, e)[i].tx);
  }

  /** A speedup keeps its price when it is taken. */
  lemma SpeedupKeepsPrice(s: State, cfg: Config, e: Event, i: nat)
    requires Inv(s) && Admissible(s, cfg, e) && IsDispatch(e) && i < |Outcomes(s, cfg, e)|
    ensures var t := Outcomes(s, cfg, e)[i].tx.txid;
            t in s.txs && (s.txs[t].kind.Speedup? ==> FeeRecorded(cfg, e, s.txs[t]) == s.txs[t].feeInfo)
  {
    hide Inv, Admissible, Outcomes;
    OutcomeIsStored(s, cfg, e, i);
    if e.DispatchClientsEvent? {
      ClientEventHasClients(s, cfg, e, i);
    }
  }

  /** A dispatch step moves every record as `DispatchMove` says. */
  lemma DispatchEventMoves(s: State, cfg: Config, e: Event, t: Txid)
    requires Inv(s) && Admissible(s, cfg, e) && IsDispatch(e) && t in s.txs
    ensures t in Step(s, cfg, e).txs && DispatchMove(s.txs[t], Step(s, cfg, e).txs[t])
  {
    hide Inv, Admissible, Step, Outcomes, Felled, HasOutcome, FeeRecorded, Accepted;
    DispatchLife(s, cfg, e, t);
    var ds := Outcomes(s, cfg, e);
    if IsWaiting(s, t) && Taken(e.node, ds, t) {
      var i :| 0 <= i < |ds| && Accepted(e.node, ds[i]) && ds[i].tx.txid == t
               && LifeIn(Step(s, cfg, e).txs[t])
                  == TakenLife(LifeIn(s.txs[t]), e.node, ds[i], e.height, FeeRecorded(cfg, e, s.txs[t]));
      SpeedupKeepsPrice(s, cfg, e, i);
    }
  }

  /** A dispatch step neither adds nor removes a record. */
  lemma DispatchKeepsKeys(s: State, cfg: Config, e: Event)
    requires Inv(s) && Admissible(s, cfg, e) && IsDispatch(e)
    ensures Step(s, cfg, e).txs.Keys == s.txs.Keys
  {
    hide Inv, Admissible, Step, Outcomes, Evolves;
    EventTracks(s, cfg, e);
    TracksEvolves(s, Step(s, cfg, e), cfg, e.node, Outcomes(s, cfg, e), e.height);
    EvolvesKeys(s, Step(s, cfg, e));
  }

  lemma EvolvesKeys(s0: State, s: State)
    requires Evolves(s0, s)
    ensures s.txs.Keys == s0.txs.Keys
  {}

  // ---------------------------------------------------------------- reviews

  lemma SameReviewMoves(s: State, deadline: BlockHeight)
    ensures ReviewMoves(s, s, deadline)
  {}

  lemma PutReviewMoves(s: State, t: Txid, r: CoordinatedTx, deadline: BlockHeight)
    requires t in s.txs && ReviewMove(s.txs[t], r, deadline)
    ensures ReviewMoves(s, Put(s, t, r), deadline)
  {}

  /** Step 1 moves every record that is not evicted as `ReviewMove` says. */
  lemma ReviewClientsMoves(s: State, cfg: Config, e: Event, t: Txid)
    requires Inv(s) && Admissible(s, cfg, e) && e.ReviewClientsEvent? && t in Step(s, cfg, e).txs
    ensures t in s.txs && ReviewMove(s.txs[t], Step(s, cfg, e).txs[t], e.height + cfg.maxMonitoringConfirmations)
  {
    hide Inv, Admissible, Step, Evicted, Stuck;
    ReviewClientsStep(s, cfg, e, t);
  }

  lemma WalkMove(s: State, t: Txid, height: BlockHeight, x: Txid)
    requires x in s.txs
    ensures x in SettleReplacedChain(s, t, height).txs
    ensures var y := SettleReplacedChain(s, t, height).txs[x];
            && y.tx == s.txs[x].tx && y.failGuardUntil == s.txs[x].failGuardUntil && SamePrice(s.txs[x], y)
            && s.txs[x].state.CanTransitionTo(y.state)
  {
    WalkSettles(s, t, height, x);
  }

  lemma {:induction false} WalkKeys(s: State, t: Txid, height: BlockHeight)
    ensures SettleReplacedChain(s, t, height).txs.Keys == s.txs.Keys
    decreases Rank(s, t)
  {
    var settled := SettleTx(s, t, Failed, height);
    assert settled.txs.Keys == s.txs.Keys && settled.lineage == s.lineage;
    hide SettleTx;
    if t in s.txs && s.txs[t].IsRBF() && Rank(s, s.txs[t].kind.speedup.predecessor) < Rank(s, t) {
      WalkKeys(settled, s.txs[t].kind.speedup.predecessor, height);
    }
  }

  /** The walk below `tx` leaves `tx` itself alone and moves every other record by one edge at most. */
  lemma WalkMoves(s: State, tx: CoordinatedTx, height: BlockHeight, t: Txid)
    requires LineageOk(s) && RbfOk(s) && Matches(s, tx) && tx.kind.Speedup? && t in s.txs
    ensures var s' := RemoveReplacedRbf(s, tx, height);
      && s'.txs.Keys == s.txs.Keys
      && (t == tx.txid ==> s'.txs[t] == s.txs[t])
      && s'.txs[t].tx == s.txs[t].tx && s'.txs[t].failGuardUntil == s.txs[t].failGuardUntil
      && SamePrice(s.txs[t], s'.txs[t])
      && s.txs[t].state.CanTransitionTo(s'.txs[t].state)
  {
    if tx.IsRBF() {
      var p := tx.kind.speedup.predecessor;
      assert IsSpeedup(s, tx.txid) && Supersedes(s, tx.txid, p);
      hide Matches, SettleReplacedChain, Visited;
      WalkKeys(s, p, height);
      WalkMove(s, p, height, t);
      if t == tx.txid {
        OutsideOwnWalk(s, t, p);
        WalkSettles(s, p, height, t);
      }
    }
  }

  /** Finalizing `tx`: one edge for it, one edge for each member of the chain it replaced. */
  lemma FinalizeMoves(s: State, tx: CoordinatedTx, height: BlockHeight, deadline: BlockHeight)
    requires LineageOk(s) && RbfOk(s) && tx.txid in s.txs && s.txs[tx.txid] == tx && InFlight(tx) && tx.kind.Speedup?
    ensures ReviewMoves(s, FinalizeSpeedup(s, tx, height), deadline)
  {
    hide LineageOk, RbfOk, Matches, RemoveReplacedRbf, Evolves, CoordinatedTx.IsSpent;
    var finalized := SettleTx(s, tx.txid, Finalized, height);
    var walked := RemoveReplacedRbf(finalized, tx, height);
    SettleShape(s, tx.txid, height);
    EvolvesKeepsLineage(s, finalized);
    assert Matches(finalized, tx) by { SettledMatches(s, tx, height); }
    FinalizedRecords(s, tx, height);
    assert walked.txs.Keys == s.txs.Keys by { WalkMoves(finalized, tx, height, tx.txid); }
    forall t | t in s.txs ensures ReviewMove(s.txs[t], walked.txs[t], deadline) {
      WalkMoves(finalized, tx, height, t);
    }
  }

  lemma SettledMatches(s: State, tx: CoordinatedTx, height: BlockHeight)
    requires tx.txid in s.txs && s.txs[tx.txid] == tx
    ensures Matches(SettleTx(s, tx.txid, Finalized, height), tx)
  {
    SameShapeReflexive(tx);
  }

  /** Moving the change into the queue leaves the records alone. */
  lemma FinalizedRecords(s: State, tx: CoordinatedTx, height: BlockHeight)
    ensures FinalizeSpeedup(s, tx, height).txs == RemoveReplacedRbf(SettleTx(s, tx.txid, Finalized, height), tx, height).txs
  {
    hide RemoveReplacedRbf, SettleTx;
  }

  lemma SettleShape(s: State, t: Txid, height: BlockHeight)
    requires t in s.txs && InFlight(s.txs[t])
    ensures Evolves(s, SettleTx(s, t, Finalized, height))
  {
    SameShapeReflexive(s.txs[t]);
    PutEvolves(s, t, s.txs[t].(state := Finalized, settledBlockHeight := Some(height)));
  }

  lemma EvolvesKeepsLineage(s: State, s': State)
    requires Evolves(s, s') && LineageOk(s) && RbfOk(s)
    ensures LineageOk(s') && RbfOk(s')
  {
    EvolvesReadsSame(s, s');
    forall t | IsSpeedup(s', t) ensures ChainEnds(s', t) {
      assert ChainEnds(s, t) && SameShape(s.txs[t], s'.txs[t]);
    }
    forall t | t in s'.txs ensures s'.txs[t].kind.Speedup? <==> t in s'.lineage {
      assert SameShape(s.txs[t], s'.txs[t]);
    }
  }

  lemma OutsideOwnWalk(s: State, t: Txid, p: Txid)
    requires LineageOk(s) && RbfOk(s) && IsSpeedup(s, t) && Supersedes(s, t, p)
    ensures t !in Visited(s, p)
  {
    SupersededIsAncestor(s, t, p);
    AncestorRank(s, p, t);
    if t in Visited(s, p) {
      VisitedAreAncestors(s, p, t);
      if t != p {
        AncestorRank(s, t, p);
      }
    }
  }

  /** One review of one speedup follows one edge on every record it touches. */
  lemma ReviewSpeedupMoves(s: State, cfg: Config, status: Txid -> ChainStatus, all: seq<CoordinatedTx>, tx: CoordinatedTx,
                           height: BlockHeight)
    requires LineageOk(s) && RbfOk(s) && tx.txid in s.txs && s.txs[tx.txid] == tx && tx.kind.Speedup?
    ensures ReviewMoves(s, ReviewSpeedup(s, cfg, status, all, tx, height), height + cfg.maxMonitoringConfirmations)
  {
    var deadline := height + cfg.maxMonitoringConfirmations;
    hide LineageOk, RbfOk, FinalizeSpeedup, ReviewMoves;
    SameReviewMoves(s, deadline);
    if InFlight(tx) {
      FinalizeMoves(s, tx, height, deadline);
      PutReviewMoves(s, tx.txid, tx.(state := Confirmed), deadline);
      PutReviewMoves(s, tx.txid, tx.(state := InMempool), deadline);
      PutReviewMoves(s, tx.txid, RequeueNotFound(s, tx.txid, deadline).txs[tx.txid], deadline);
      if tx.state.Confirmed? {
        PutReviewMoves(s, tx.txid, tx.(state := InMempool, broadcastBlockHeight := Some(height)), deadline);
      }
    }
  }

  lemma ReviewPathsExtend(a: State, b: State, c: State, deadline: BlockHeight)
    requires ReviewMoves(a, b, deadline) && ReviewPaths(b, c, deadline)
    ensures ReviewPaths(a, c, deadline)
  {
    forall t | t in a.txs ensures ReviewPath(a.txs[t], c.txs[t], deadline) {
      assert ReviewMove(a.txs[t], b.txs[t], deadline) && ReviewPath(b.txs[t], c.txs[t], deadline);
    }
  }

  lemma ReviewingFacts(s: State, all: seq<CoordinatedTx>, i: nat)
    requires i < |all| && Reviewing(s, all, i)
    ensures LineageOk(s) && RbfOk(s) && all[i].txid in s.txs && s.txs[all[i].txid] == all[i] && all[i].kind.Speedup?
  {
    hide Inv, KeysOk, LineageOk, RbfOk, QueueOk, InputsOk, LifecycleOk, ParentsOk, ReservedOk;
    InvParts(s);
  }

  lemma {:induction false} ReviewFromMoves(s: State, cfg: Config, status: Txid -> ChainStatus, all: seq<CoordinatedTx>,
                                           i: nat, height: BlockHeight)
    requires i <= |all| && Reviewing(s, all, i)
    ensures ReviewPaths(s, ReviewSpeedupsFrom(s, cfg, status, all, i, height), height + cfg.maxMonitoringConfirmations)
    decreases |all| - i
  {
    hide Reviewing, ReviewSpeedup, LineageOk, RbfOk;
    if i < |all| {
      var next := ReviewSpeedup(s, cfg, status, all, all[i], height);
      ReviewingFacts(s, all, i);
      ReviewSpeedupMoves(s, cfg, status, all, all[i], height);
      ReviewSpeedupAdvances(s, cfg, status, all, i, height);
      ReviewFromMoves(next, cfg, status, all, i + 1, height);
      hide ReviewPaths, ReviewMoves;
      ReviewPathsExtend(s, next, ReviewSpeedupsFrom(s, cfg, status, all, i, height), height + cfg.maxMonitoringConfirmations);
    }
  }

  /** Step 2 as a whole. */
  lemma ReviewSpeedupsMoves(s: State, cfg: Config, status: Txid -> ChainStatus, height: BlockHeight)
    requires Inv(s)
    ensures ReviewPaths(s, ReviewSpeedups(s, cfg, status, height), height + cfg.maxMonitoringConfirmations)
  {
    hide Inv, Reviewing, ReviewPaths;
    ReviewStarts(s);
    ReviewFromMoves(s, cfg, status, SpeedupRecords(s), 0, height);
  }
}

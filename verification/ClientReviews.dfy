/** Exactly what step 1 does to every record: who is evicted, and where a review leaves the client transactions
    (src/core/storage.rs:283-327, src/engines/transaction_engine.rs:23-174). */
module ClientReviews {
  import opened Types
  import opened Oracles
  import opened States
  import opened Engines
  import opened Invariants
  import opened GrowthLaws
  import opened ReviewLaws
  import opened OutcomeLaws
  import opened Runs

  /** A listed speedup that has not settled covers `t`. */
  predicate CoveredByLive(s: State, t: Txid) {
    exists c :: c in s.speedups && c in s.txs && s.txs[c].kind.Speedup? && s.txs[c].kind.speedup.CPFP?
                && !s.txs[c].state.Finalized? && !s.txs[c].state.Failed? && t in s.txs[c].kind.speedup.parents
  }

  /** `t` has been settled for long enough, and no speedup is still owed to it. */
  predicate Evicted(s: State, cfg: Config, height: BlockHeight, t: Txid) {
    && t in s.txs
    && (s.txs[t].state.Finalized? || s.txs[t].state.Failed?)
    && s.txs[t].settledBlockHeight.Some?
    && (cfg.maxTrackingConfirmations == 0 || s.txs[t].settledBlockHeight.value + cfg.maxTrackingConfirmations <= height)
    && (s.txs[t].kind.NeedsSpeedup? ==> t !in s.psp && !CoveredByLive(s, t))
  }

  predicate Reviewed(s: State, order: seq<Txid>, t: Txid) {
    t in order && t in s.txs && !s.txs[t].kind.Speedup? && (s.txs[t].state.InMempool? || s.txs[t].state.Confirmed?)
  }

  /** Where the chain's answer takes a client transaction in flight. */
  function AfterReview(cfg: Config, status: ChainStatus, r: CoordinatedTx, height: BlockHeight): CoordinatedTx {
    match status
    case SeenInMempool => if r.state.Confirmed? then r.(state := InMempool, broadcastBlockHeight := Some(height)) else r
    case NotFound =>
      r.(state := ToDispatch,
         failGuardUntil := if r.failGuardUntil.Some? then r.failGuardUntil else Some(height + cfg.maxMonitoringConfirmations))
    case Settled => r.(state := Finalized, settledBlockHeight := Some(height))
    case Mined => r.(state := Confirmed)
    case Orphaned => r.(state := InMempool)
    case Unclear => r
  }

  /** In the mempool for at least as long as its client set as the limit. */
  predicate Stuck(status: ChainStatus, r: CoordinatedTx, height: BlockHeight) {
    && status.SeenInMempool? && r.state.InMempool?
    && r.stuckInMempoolBlocks.Some? && r.broadcastBlockHeight.Some?
    && (r.stuckInMempoolBlocks.value == 0 || r.broadcastBlockHeight.value + r.stuckInMempoolBlocks.value <= height)
  }

  // ---------------------------------------------------------------- eviction

  lemma CoverIs(s: State, t: Txid)
    ensures t in LiveCovered(s) <==> CoveredByLive(s, t)
  {
    var all := SpeedupRecords(s);
    if i :| 0 <= i < |all| && !all[i].state.Terminal() && t in all[i].Parents() {
      assert all[i] in all;
      var c :| c in s.speedups && c in s.txs && s.txs[c] == all[i];
    }
    if c :| c in s.speedups && c in s.txs && s.txs[c].kind.Speedup? && s.txs[c].kind.speedup.CPFP?
            && !s.txs[c].state.Finalized? && !s.txs[c].state.Failed? && t in s.txs[c].kind.speedup.parents {
      assert s.txs[c] in all;
      var i :| 0 <= i < |all| && all[i] == s.txs[c];
      assert !all[i].state.Terminal() && t in all[i].Parents();
    }
  }

  lemma EvictionIs(s: State, cfg: Config, height: BlockHeight, t: Txid)
    ensures Evictable(s, t, height, cfg.maxTrackingConfirmations) <==> Evicted(s, cfg, height, t)
  {
    hide LiveCovered, CoveredByLive;
    CoverIs(s, t);
  }

  lemma KeptIs(s: State, cfg: Config, height: BlockHeight, t: Txid)
    ensures var kept := EvictStaleTxs(s, height, cfg.maxTrackingConfirmations);
      && (t in kept.txs <==> t in s.txs && !Evicted(s, cfg, height, t))
      && (t in kept.txs ==> kept.txs[t] == s.txs[t])
      && (TransactionEvicted(t) in kept.news <==> TransactionEvicted(t) in s.news || Evicted(s, cfg, height, t))
      && (TransactionStuckInMempool(t) in kept.news <==> TransactionStuckInMempool(t) in s.news)
  {
    hide Evictable, Evicted;
    EvictionIs(s, cfg, height, t);
  }

  // ---------------------------------------------------------------- reviews

  /** One review writes one record, and notes at most that it is stuck. */
  lemma OneReview(s: State, cfg: Config, status: Txid -> ChainStatus, tx: CoordinatedTx, height: BlockHeight)
    requires tx.txid in s.txs && s.txs[tx.txid] == tx && InFlight(tx)
    ensures var s' := ReviewTransaction(s, cfg, status, tx, height);
      && s'.txs == s.txs[tx.txid := AfterReview(cfg, status(tx.txid), tx, height)]
      && s'.news == s.news + if Stuck(status(tx.txid), tx, height) then {TransactionStuckInMempool(tx.txid)} else {}
  {
    assert s.txs[tx.txid := tx] == s.txs;
  }

  lemma {:induction false} ReviewsOf(s: State, cfg: Config, status: Txid -> ChainStatus, txs: seq<CoordinatedTx>,
                                     height: BlockHeight, t: Txid)
    requires Current(s, txs) && forall i :: 0 <= i < |txs| ==> InFlight(txs[i])
    requires t in s.txs
    ensures var s' := ReviewTransactions(s, cfg, status, txs, height);
            var reviewed := exists i :: 0 <= i < |txs| && txs[i].txid == t;
      && s'.txs.Keys == s.txs.Keys
      && s'.txs[t] == (if reviewed then AfterReview(cfg, status(t), s.txs[t], height) else s.txs[t])
      && (TransactionStuckInMempool(t) in s'.news <==>
            TransactionStuckInMempool(t) in s.news || (reviewed && Stuck(status(t), s.txs[t], height)))
      && (forall x :: TransactionEvicted(x) in s'.news <==> TransactionEvicted(x) in s.news)
    decreases |txs|
  {
    hide AfterReview, Stuck, InFlight;
    if txs != [] {
      var next := ReviewTransaction(s, cfg, status, txs[0], height);
      OneReview(s, cfg, status, txs[0], height);
      ReviewKeepsTxid(cfg, status(txs[0].txid), txs[0], height);
      hide ReviewTransaction;
      assert Current(next, txs[1..]);
      ReviewsOf(next, cfg, status, txs[1..], height, t);
      ReviewedSplit(txs, t);
    }
  }

  lemma ReviewedSplit(txs: seq<CoordinatedTx>, t: Txid)
    requires txs != []
    ensures (exists i :: 0 <= i < |txs| && txs[i].txid == t) <==>
              txs[0].txid == t || exists i :: 0 <= i < |txs[1..]| && txs[1..][i].txid == t
  {
    if i :| 0 <= i < |txs| && txs[i].txid == t {
      assert i > 0 ==> txs[1..][i - 1].txid == t;
    }
    if i :| 0 <= i < |txs[1..]| && txs[1..][i].txid == t {
      assert txs[i + 1].txid == t;
    }
  }

  lemma {:induction false} ReviewedAre(s: State, order: seq<Txid>, t: Txid)
    requires KeysOk(s)
    ensures (exists r :: r in ToReview(s, order) && r.txid == t) <==> Reviewed(s, order, t)
  {
    if order != [] {
      ReviewedAre(s, order[1..], t);
      var first := if order[0] in s.txs && !s.txs[order[0]].kind.Speedup? && InFlight(s.txs[order[0]]) then [s.txs[order[0]]] else [];
      assert ToReview(s, order) == first + ToReview(s, order[1..]);
      if Reviewed(s, order, t) && order[0] == t {
        assert s.txs[t] in first;
      }
    }
  }

  lemma AtSomePlace(txs: seq<CoordinatedTx>, t: Txid)
    ensures (exists r :: r in txs && r.txid == t) <==> exists i :: 0 <= i < |txs| && txs[i].txid == t
  {
    if r :| r in txs && r.txid == t {
      var i :| 0 <= i < |txs| && txs[i] == r;
    }
  }

  /** Step 1, exactly: which records go, what the chain's answer makes of every listed client transaction in flight, that no other
      record changes, and which news come with it. */
  lemma ReviewClientsStep(s: State, cfg: Config, e: Event, t: Txid)
    requires Inv(s) && Admissible(s, cfg, e) && e.ReviewClientsEvent?
    ensures var s' := Step(s, cfg, e);
      && (t in s'.txs <==> t in s.txs && !Evicted(s, cfg, e.height, t))
      && (t in s'.txs ==>
            s'.txs[t] == if Reviewed(s, e.order, t) then AfterReview(cfg, e.status(t), s.txs[t], e.height) else s.txs[t])
      && (TransactionEvicted(t) in s'.news <==> TransactionEvicted(t) in s.news || Evicted(s, cfg, e.height, t))
      && (t in s'.txs ==>
            (TransactionStuckInMempool(t) in s'.news <==>
               TransactionStuckInMempool(t) in s.news || (Reviewed(s, e.order, t) && Stuck(e.status(t), s.txs[t], e.height))))
  {
    var kept := EvictStaleTxs(s, e.height, cfg.maxTrackingConfirmations);
    EvictKeepsInv(s, e.height, cfg.maxTrackingConfirmations);
    InvKeyed(kept);
    hide Inv, KeysOk, EvictStaleTxs, ToReview, AfterReview, Stuck, Evicted;
    KeptIs(s, cfg, e.height, t);
    ToReviewCurrent(kept, e.order);
    var txs := ToReview(kept, e.order);
    AnyReviews(kept, cfg, e.status, txs, e.height);
    if t in kept.txs {
      ReviewsOf(kept, cfg, e.status, txs, e.height, t);
      ReviewedAre(kept, e.order, t);
      AtSomePlace(txs, t);
      assert Reviewed(kept, e.order, t) == Reviewed(s, e.order, t);
    }
  }

  lemma ReviewKeepsTxid(cfg: Config, status: ChainStatus, r: CoordinatedTx, height: BlockHeight)
    ensures AfterReview(cfg, status, r, height).txid == r.txid
  {}

  /** Reviews neither add nor remove records, and evict nobody. */
  lemma {:induction false} AnyReviews(s: State, cfg: Config, status: Txid -> ChainStatus, txs: seq<CoordinatedTx>,
                                      height: BlockHeight)
    requires Current(s, txs) && forall i :: 0 <= i < |txs| ==> InFlight(txs[i])
    ensures var s' := ReviewTransactions(s, cfg, status, txs, height);
            s'.txs.Keys == s.txs.Keys && forall x :: TransactionEvicted(x) in s'.news <==> TransactionEvicted(x) in s.news
    decreases |txs|
  {
    hide AfterReview, Stuck, InFlight;
    if txs != [] {
      var next := ReviewTransaction(s, cfg, status, txs[0], height);
      OneReview(s, cfg, status, txs[0], height);
      hide ReviewTransaction;
      assert Current(next, txs[1..]);
      AnyReviews(next, cfg, status, txs[1..], height);
    }
  }
}

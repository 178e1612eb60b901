/** The review steps keep the invariant: steps 1 and 2 of a tick. */
module ReviewLaws {
  import opened Types
  import opened Oracles
  import opened States
  import opened Failures
  import opened Engines
  import opened Invariants
  import opened Evolution
  import opened FailureLaws
  import opened GrowthLaws
  import opened FinalizeLaws
  import opened CascadeLaws

  // ---------------------------------------------------------------- single moves of an in-flight record

  /** A record of `s` changed along the lifecycle only. */
  lemma MoveKeepsInv(s: State, t: Txid, r: CoordinatedTx)
    requires Inv(s) && t in s.txs && InFlight(s.txs[t])
    requires SameShape(s.txs[t], r) && r.kind == s.txs[t].kind
    requires s.txs[t].state.CanTransitionTo(r.state) && LifeOf(r)
    requires s.txs[t].broadcastBlockHeight.Some? ==> r.broadcastBlockHeight.Some?
    requires IsSpeedup(s, t) && r.state.ToDispatch? ==> !Masked(s, t)
    ensures Inv(Put(s, t, r)) && Evolves(s, Put(s, t, r))
  {
    assert WriteOk(s, t, r) by {
      hide Inv, Masked, SameShape, LifeOf;
    }
    hide Inv, WriteOk, Evolves;
    WriteKeepsInv(s, t, r);
  }

  lemma MarkReorgKeepsInv(s: State, tx: CoordinatedTx, height: BlockHeight)
    requires Inv(s) && tx.txid in s.txs && s.txs[tx.txid] == tx && tx.state.Confirmed?
    ensures Inv(MarkReorg(s, tx, height)) && Evolves(s, MarkReorg(s, tx, height))
  {
    assert LifeOf(tx) by { hide Structure, Reservations, ParentsOk, OnePrebuilt; }
    hide Inv, Evolves;
    MoveKeepsInv(s, tx.txid, tx.(state := InMempool, broadcastBlockHeight := Some(height)));
  }

  lemma RequeueKeepsAll(s: State, t: Txid, deadline: BlockHeight)
    requires Inv(s) && t in s.txs && InFlight(s.txs[t]) && (IsSpeedup(s, t) ==> !Masked(s, t))
    ensures Inv(RequeueNotFound(s, t, deadline)) && Evolves(s, RequeueNotFound(s, t, deadline))
  {
    assert LifeOf(s.txs[t]) by { hide Structure, Reservations, ParentsOk, OnePrebuilt; }
    hide Inv, Evolves, Masked;
    MoveKeepsInv(s, t, RequeueNotFound(s, t, deadline).txs[t]);
  }

  lemma UpdateKeepsInv(s: State, t: Txid, next: TransactionState)
    requires Inv(s) && t in s.txs && InFlight(s.txs[t]) && (next.Confirmed? || next.InMempool?)
    ensures Inv(UpdateTxState(s, t, next)) && Evolves(s, UpdateTxState(s, t, next))
  {
    assert LifeOf(s.txs[t]) by { hide Structure, Reservations, ParentsOk, OnePrebuilt; }
    hide Inv, Evolves;
    MoveKeepsInv(s, t, s.txs[t].(state := next));
  }

  lemma FinalizeKeepsInv(s: State, t: Txid, height: BlockHeight)
    requires Inv(s) && t in s.txs && InFlight(s.txs[t])
    ensures Inv(SettleTx(s, t, Finalized, height)) && Evolves(s, SettleTx(s, t, Finalized, height))
    ensures SettleTx(s, t, Finalized, height).txs[t].state.Finalized?
  {
    assert LifeOf(s.txs[t]) by { hide Structure, Reservations, ParentsOk, OnePrebuilt; }
    hide Inv, Evolves;
    MoveKeepsInv(s, t, s.txs[t].(state := Finalized, settledBlockHeight := Some(height)));
  }

  // ---------------------------------------------------------------- step 1

  lemma ReviewTransactionKeepsInv(s: State, cfg: Config, status: Txid -> ChainStatus, tx: CoordinatedTx, height: BlockHeight)
    requires Inv(s) && tx.txid in s.txs && s.txs[tx.txid] == tx && InFlight(tx) && !tx.kind.Speedup?
    ensures var s' := ReviewTransaction(s, cfg, status, tx, height);
            Inv(s') && forall t :: t in s.txs && t != tx.txid ==> t in s'.txs && s'.txs[t] == s.txs[t]
  {
    hide Inv;
    match status(tx.txid)
    case SeenInMempool =>
      if tx.state.Confirmed? {
        MarkReorgKeepsInv(s, tx, height);
      } else if tx.IsStuckInMempool(height) {
        NewsKeepsInv(s, TransactionStuckInMempool(tx.txid));
      }
    case NotFound => RequeueKeepsAll(s, tx.txid, height + cfg.maxMonitoringConfirmations);
    case Settled => FinalizeKeepsInv(s, tx.txid, height);
    case Mined => UpdateKeepsInv(s, tx.txid, Confirmed);
    case Orphaned => UpdateKeepsInv(s, tx.txid, InMempool);
    case Unclear =>
  }

  /** The records still to be reviewed are the stored ones. */
  ghost predicate Current(s: State, txs: seq<CoordinatedTx>) {
    && (forall i :: 0 <= i < |txs| ==> txs[i].txid in s.txs && s.txs[txs[i].txid] == txs[i])
    && (forall i, j :: 0 <= i < j < |txs| ==> txs[i].txid != txs[j].txid)
  }

  lemma {:induction false} ReviewTransactionsKeepsInv(s: State, cfg: Config, status: Txid -> ChainStatus,
                                                      txs: seq<CoordinatedTx>, height: BlockHeight)
    requires Inv(s) && Current(s, txs)
    requires forall i :: 0 <= i < |txs| ==> InFlight(txs[i]) && !txs[i].kind.Speedup?
    ensures Inv(ReviewTransactions(s, cfg, status, txs, height))
    decreases |txs|
  {
    hide Inv, ReviewTransaction;
    if txs != [] {
      assert s.txs[txs[0].txid] == txs[0];
      ReviewTransactionKeepsInv(s, cfg, status, txs[0], height);
      ReviewTransactionsKeepsInv(ReviewTransaction(s, cfg, status, txs[0], height), cfg, status, txs[1..], height);
    }
  }

  lemma {:induction false} ToReviewCurrent(s: State, order: seq<Txid>)
    requires KeysOk(s) && NoDup(order)
    ensures Current(s, ToReview(s, order))
    ensures forall i :: 0 <= i < |ToReview(s, order)| ==>
              ToReview(s, order)[i].txid in order && InFlight(ToReview(s, order)[i]) && !ToReview(s, order)[i].kind.Speedup?
  {
    if order != [] {
      ToReviewCurrent(s, order[1..]);
      var rest := ToReview(s, order[1..]);
      assert forall i :: 0 <= i < |rest| ==> rest[i].txid in order[1..];
      assert order[0] !in order[1..];
    }
  }

  /** Step 1: evict what is stale, then review the client transactions in flight. */
  lemma ReviewActiveKeepsInv(s: State, cfg: Config, status: Txid -> ChainStatus, order: seq<Txid>, height: BlockHeight)
    requires Inv(s) && NoDup(order)
    ensures Inv(ReviewActive(s, cfg, status, order, height))
  {
    var kept := EvictStaleTxs(s, height, cfg.maxTrackingConfirmations);
    EvictKeepsInv(s, height, cfg.maxTrackingConfirmations);
    assert KeysOk(kept);
    hide Inv, EvictStaleTxs, ToReview, KeysOk;
    ToReviewCurrent(kept, order);
    ReviewTransactionsKeepsInv(kept, cfg, status, ToReview(kept, order), height);
  }

  // ---------------------------------------------------------------- the replaced chain

  /** The records the walk from `t` visits: down the stored `replaces` links. */
  function Visited(s: State, t: Txid): (v: seq<Txid>)
    ensures t in v
    decreases Rank(s, t)
  {
    [t] + (if t in s.txs && s.txs[t].IsRBF() && Rank(s, s.txs[t].kind.speedup.predecessor) < Rank(s, t)
           then Visited(s, s.txs[t].kind.speedup.predecessor) else [])
  }

  /** On a well-formed store the rank test never cuts the walk: `replaces` names an older record. */
  lemma WalkDescends(s: State, t: Txid)
    requires LineageOk(s) && RbfOk(s) && IsSpeedup(s, t) && s.txs[t].IsRBF()
    ensures Rank(s, s.txs[t].kind.speedup.predecessor) < Rank(s, t)
  {
    var p := s.txs[t].kind.speedup.predecessor;
    SupersededIsAncestor(s, t, p);
    AncestorRank(s, p, t);
  }

  lemma {:induction false} VisitedAreAncestors(s: State, t: Txid, x: Txid)
    requires LineageOk(s) && RbfOk(s) && x in Visited(s, t)
    ensures x == t || Ancestor(s, x, t)
    decreases Rank(s, t)
  {
    if x != t {
      var p := s.txs[t].kind.speedup.predecessor;
      assert IsSpeedup(s, t) && Supersedes(s, t, p);
      SupersededIsAncestor(s, t, p);
      VisitedAreAncestors(s, p, x);
      AncestorRank(s, p, t);
    }
  }

  /** The walk reads shapes only, so settling records on the way does not change its course. */
  lemma {:induction false} VisitedStable(s: State, s': State, t: Txid)
    requires Evolves(s, s')
    ensures Visited(s', t) == Visited(s, t)
    decreases Rank(s, t)
  {
    if t in s.txs {
      assert SameShape(s.txs[t], s'.txs[t]);
      hide Evolves, SameShape;
      if s.txs[t].IsRBF() && Rank(s, s.txs[t].kind.speedup.predecessor) < Rank(s, t) {
        VisitedStable(s, s', s.txs[t].kind.speedup.predecessor);
      }
    }
  }

  /** A member of a replaced chain after the walk: settled Failed at this height unless it is confirmed or finalized. */
  function WalkedOver(r: CoordinatedTx, height: BlockHeight): CoordinatedTx {
    if r.state.ToDispatch? || r.state.InMempool? || r.state.Failed? then r.(state := Failed, settledBlockHeight := Some(height)) else r
  }

  lemma SettleTxState(s: State, t: Txid, height: BlockHeight, x: Txid)
    requires x in s.txs
    ensures x in SettleTx(s, t, Failed, height).txs && SettleTx(s, t, Failed, height).lineage == s.lineage
    ensures x != t ==> SettleTx(s, t, Failed, height).txs[x] == s.txs[x]
    ensures SettleTx(s, t, Failed, height).txs[x] == if x == t then WalkedOver(s.txs[x], height) else s.txs[x]
  {}

  lemma RankStable(s: State, s': State, t: Txid)
    requires s'.lineage == s.lineage
    ensures Rank(s', t) == Rank(s, t)
  {}

  /** The walk settles exactly its waiting, in-mempool and Failed members, the last ones again; confirmed, finalized and other
      records stay as they are. */
  lemma {:induction false} WalkSettles(s: State, t: Txid, height: BlockHeight, x: Txid)
    requires x in s.txs
    ensures x in SettleReplacedChain(s, t, height).txs
    ensures SettleReplacedChain(s, t, height).txs[x] == if x in Visited(s, t) then WalkedOver(s.txs[x], height) else s.txs[x]
    ensures SettleReplacedChain(s, t, height).txs[x].state
            == if x in Visited(s, t) && (s.txs[x].state.ToDispatch? || s.txs[x].state.InMempool?) then Failed
               else s.txs[x].state
    decreases Rank(s, t)
  {
    hide SettleTx, Rank, Evolves;
    SettleTxState(s, t, height, x);
    if t in s.txs && s.txs[t].IsRBF() && Rank(s, s.txs[t].kind.speedup.predecessor) < Rank(s, t) {
      var settled := SettleTx(s, t, Failed, height);
      var p := s.txs[t].kind.speedup.predecessor;
      SettleTxEvolves(s, t, height);
      VisitedStable(s, settled, p);
      RankStable(s, settled, p);
      WalkSettles(settled, p, height, x);
    }
  }

  lemma {:induction false} WalkKeepsInv(s: State, t: Txid, height: BlockHeight)
    requires Inv(s)
    ensures Inv(SettleReplacedChain(s, t, height)) && Declines(s, SettleReplacedChain(s, t, height))
    decreases Rank(s, t)
  {
    hide Inv, Declines;
    var settled := SettleTx(s, t, Failed, height);
    SettleFailedKeepsInv(s, t, height);
    assert settled.lineage == s.lineage;
    hide SettleTx;
    if t in s.txs && s.txs[t].IsRBF() && Rank(s, s.txs[t].kind.speedup.predecessor) < Rank(s, t) {
      WalkKeepsInv(settled, s.txs[t].kind.speedup.predecessor, height);
      DeclinesTransitive(s, settled, SettleReplacedChain(s, t, height));
    }
  }

  // ---------------------------------------------------------------- step 2

  /** `all` is the snapshot; from index `i` on it still equals the store. */
  ghost predicate Reviewing(s: State, all: seq<CoordinatedTx>, i: nat) {
    && Inv(s)
    && (forall j :: i <= j < |all| ==> all[j].txid in s.speedups && all[j].txid in s.txs && s.txs[all[j].txid] == all[j])
    && (forall k, j :: 0 <= k < j < |all| ==> all[k].txid != all[j].txid && !Ancestor(s, all[j].txid, all[k].txid))
    && (forall z :: z in s.speedups ==> exists k :: 0 <= k < |all| && all[k].txid == z)
    && (forall k :: 0 <= k < |all| && all[k].txid in s.txs ==>
          SameShape(all[k], s.txs[all[k].txid]) && (all[k].state.Failed? ==> s.txs[all[k].txid].state.Failed?))
  }

  /** What reviewing `t` may touch: `t` itself and speedups it replaced. */
  ghost predicate Touches(s: State, s': State, t: Txid) {
    && s'.txs.Keys == s.txs.Keys
    && s'.lineage == s.lineage
    && (forall z :: z in s'.speedups ==> z in s.speedups)
    && (forall z :: z in s.speedups && z != t ==> z in s'.speedups)
    && (forall x :: x in s.txs ==> SameShape(s.txs[x], s'.txs[x]))
    && (forall x :: x in s.txs && s.txs[x].state.Failed? ==> s'.txs[x].state.Failed?)
    && (forall x :: x in s.txs && x != t && !Ancestor(s, x, t) ==> s'.txs[x] == s.txs[x])
  }

  lemma ReviewAdvances(s: State, s': State, all: seq<CoordinatedTx>, i: nat)
    requires i < |all| && Reviewing(s, all, i) && Inv(s') && Touches(s, s', all[i].txid)
    ensures Reviewing(s', all, i + 1)
  {
    hide Inv;
    forall j | i + 1 <= j < |all| ensures all[j].txid in s'.speedups && s'.txs[all[j].txid] == all[j] {
      assert !Ancestor(s, all[j].txid, all[i].txid);
    }
    forall k | 0 <= k < |all| && all[k].txid in s'.txs
      ensures SameShape(all[k], s'.txs[all[k].txid]) && (all[k].state.Failed? ==> s'.txs[all[k].txid].state.Failed?)
    {
      assert SameShape(s.txs[all[k].txid], s'.txs[all[k].txid]);
    }
    forall k, j | 0 <= k < j < |all| ensures !Ancestor(s', all[j].txid, all[k].txid) {
      assert !Ancestor(s, all[j].txid, all[k].txid);
    }
  }

  /** The stale snapshot sees every replacement the store sees. */
  lemma SnapshotSeesMask(s: State, all: seq<CoordinatedTx>, i: nat)
    requires i < |all| && Reviewing(s, all, i) && Masked(s, all[i].txid)
    ensures all[i].HasLiveReplacement(all)
  {
    hide Inv;
    var t := all[i].txid;
    if !all[i].IsBeingReplaced() {
      var z :| z in s.speedups && Live(s, z) && Supersedes(s, z, t);
      var k :| 0 <= k < |all| && all[k].txid == z;
      assert SameShape(all[k], s.txs[z]);
      SameShapeSupersedes(all[k], s.txs[z], t);
      assert !all[k].state.Failed? && all[k].Supersedes(t);
    }
  }

  lemma PutTouches(s: State, t: Txid, r: CoordinatedTx)
    requires t in s.txs && SameShape(s.txs[t], r) && !s.txs[t].state.Failed?
    ensures Touches(s, Put(s, t, r), t)
  {
    hide SameShape;
    forall x | x in s.txs ensures SameShape(s.txs[x], Put(s, t, r).txs[x]) {
      SameShapeReflexive(s.txs[x]);
    }
  }

  lemma SameTouches(s: State, t: Txid)
    ensures Touches(s, s, t)
  {
    hide SameShape;
    forall x | x in s.txs ensures SameShape(s.txs[x], s.txs[x]) {
      SameShapeReflexive(s.txs[x]);
    }
  }

  lemma TouchesTransitive(a: State, b: State, c: State, t: Txid)
    requires Touches(a, b, t) && Touches(b, c, t)
    ensures Touches(a, c, t)
  {
    forall x | x in a.txs ensures SameShape(a.txs[x], c.txs[x]) {
      assert SameShape(a.txs[x], b.txs[x]) && SameShape(b.txs[x], c.txs[x]);
    }
    hide SameShape;
    assert forall x :: Ancestor(b, x, t) == Ancestor(a, x, t);
  }

  lemma NotOwnAncestor(s: State, t: Txid)
    requires LineageOk(s)
    ensures !Ancestor(s, t, t)
  {
    if Ancestor(s, t, t) {
      AncestorRank(s, t, t);
    }
  }

  lemma WalkLeavesOthers(s: State, tx: CoordinatedTx, height: BlockHeight, x: Txid)
    requires LineageOk(s) && RbfOk(s) && Matches(s, tx) && tx.IsRBF()
    requires x in s.txs && !Ancestor(s, x, tx.txid)
    ensures x in RemoveReplacedRbf(s, tx, height).txs && RemoveReplacedRbf(s, tx, height).txs[x] == s.txs[x]
  {
    var p := tx.kind.speedup.predecessor;
    assert IsSpeedup(s, tx.txid) && Supersedes(s, tx.txid, p);
    SupersededIsAncestor(s, tx.txid, p);
    AncestorRank(s, p, tx.txid);
    hide Matches, SameShape;
    WalkSettles(s, p, height, x);
    if x in Visited(s, p) {
      VisitedAreAncestors(s, p, x);
    }
  }

  lemma DeclineTouches(s: State, s': State, t: Txid)
    requires Declines(s, s')
    requires forall x :: x in s.txs && x != t && !Ancestor(s, x, t) ==> s'.txs[x] == s.txs[x]
    ensures Touches(s, s', t)
  {
    hide SameShape;
  }

  lemma WalkTouches(s: State, tx: CoordinatedTx, height: BlockHeight)
    requires Inv(s) && Matches(s, tx)
    ensures Inv(RemoveReplacedRbf(s, tx, height)) && Touches(s, RemoveReplacedRbf(s, tx, height), tx.txid)
    ensures tx.txid in RemoveReplacedRbf(s, tx, height).txs
    ensures RemoveReplacedRbf(s, tx, height).txs[tx.txid] == s.txs[tx.txid]
    ensures RemoveReplacedRbf(s, tx, height).speedups == s.speedups
  {
    assert LineageOk(s) && RbfOk(s);
    hide Inv, LineageOk, RbfOk, SameShape;
    if tx.IsRBF() {
      var p := tx.kind.speedup.predecessor;
      WalkKeepsInv(s, p, height);
      NotOwnAncestor(s, tx.txid);
      forall x | x in s.txs && !Ancestor(s, x, tx.txid)
        ensures x in RemoveReplacedRbf(s, tx, height).txs && RemoveReplacedRbf(s, tx, height).txs[x] == s.txs[x]
      {
        WalkLeavesOthers(s, tx, height, x);
      }
      hide Touches, SettleReplacedChain;
      DeclineTouches(s, RemoveReplacedRbf(s, tx, height), tx.txid);
    } else {
      SameTouches(s, tx.txid);
    }
  }

  lemma FinalizeSpeedupAdvances(s: State, tx: CoordinatedTx, height: BlockHeight)
    requires Inv(s) && tx.txid in s.txs && s.txs[tx.txid] == tx && tx.txid in s.speedups && InFlight(tx)
    ensures Inv(FinalizeSpeedup(s, tx, height)) && Touches(s, FinalizeSpeedup(s, tx, height), tx.txid)
  {
    hide Inv;
    var t := tx.txid;
    var finalized := SettleTx(s, t, Finalized, height);
    FinalizeKeepsInv(s, t, height);
    SameShapeReflexive(tx);
    PutTouches(s, t, finalized.txs[t]);
    assert Matches(finalized, tx);
    var walked := RemoveReplacedRbf(finalized, tx, height);
    WalkTouches(finalized, tx, height);
    assert walked.speedups == s.speedups;
    hide SettleTx, RemoveReplacedRbf, Matches;
    TouchesTransitive(s, finalized, walked, t);
    ReplaceKeepsInv(walked, t);
    UnlistTouches(walked, t);
    TouchesTransitive(s, walked, ReplaceFundingOnFinalize(walked, t), t);
  }

  lemma UnlistTouches(s: State, t: Txid)
    ensures Touches(s, ReplaceFundingOnFinalize(s, t), t)
  {
    SameTouches(s, t);
  }

  lemma ReviewSpeedupTouches(s: State, cfg: Config, status: Txid -> ChainStatus, all: seq<CoordinatedTx>, tx: CoordinatedTx,
                             height: BlockHeight)
    requires Inv(s) && tx.txid in s.txs && s.txs[tx.txid] == tx && tx.txid in s.speedups
    requires Masked(s, tx.txid) ==> tx.HasLiveReplacement(all)
    ensures Inv(ReviewSpeedup(s, cfg, status, all, tx, height))
    ensures Touches(s, ReviewSpeedup(s, cfg, status, all, tx, height), tx.txid)
  {
    hide Inv, Touches, SameShape, Masked;
    SameTouches(s, tx.txid);
    SameShapeReflexive(tx);
    var deadline := height + cfg.maxMonitoringConfirmations;
    if InFlight(tx) {
      match status(tx.txid)
      case SeenInMempool =>
        if tx.state.Confirmed? {
          MarkReorgKeepsInv(s, tx, height);
          PutTouches(s, tx.txid, tx.(state := InMempool, broadcastBlockHeight := Some(height)));
        }
      case NotFound =>
        if !tx.HasLiveReplacement(all) {
          RequeueKeepsAll(s, tx.txid, deadline);
          PutTouches(s, tx.txid, RequeueNotFound(s, tx.txid, deadline).txs[tx.txid]);
        }
      case Settled => FinalizeSpeedupAdvances(s, tx, height);
      case Mined =>
        UpdateKeepsInv(s, tx.txid, Confirmed);
        PutTouches(s, tx.txid, tx.(state := Confirmed));
      case Orphaned =>
        UpdateKeepsInv(s, tx.txid, InMempool);
        PutTouches(s, tx.txid, tx.(state := InMempool));
      case Unclear =>
    }
  }

  lemma ReviewSpeedupAdvances(s: State, cfg: Config, status: Txid -> ChainStatus, all: seq<CoordinatedTx>, i: nat,
                              height: BlockHeight)
    requires i < |all| && Reviewing(s, all, i)
    ensures Reviewing(ReviewSpeedup(s, cfg, status, all, all[i], height), all, i + 1)
  {
    assert s.txs[all[i].txid] == all[i] && all[i].txid in s.speedups;
    hide Inv, ReviewSpeedup, Masked, Touches;
    if Masked(s, all[i].txid) {
      SnapshotSeesMask(s, all, i);
    }
    ReviewSpeedupTouches(s, cfg, status, all, all[i], height);
    ReviewAdvances(s, ReviewSpeedup(s, cfg, status, all, all[i], height), all, i);
  }

  lemma {:induction false} ReviewFromKeepsInv(s: State, cfg: Config, status: Txid -> ChainStatus, all: seq<CoordinatedTx>,
                                              i: nat, height: BlockHeight)
    requires i <= |all| && Reviewing(s, all, i)
    ensures Inv(ReviewSpeedupsFrom(s, cfg, status, all, i, height))
    decreases |all| - i
  {
    hide Inv, ReviewSpeedup;
    if i < |all| {
      ReviewSpeedupAdvances(s, cfg, status, all, i, height);
      ReviewFromKeepsInv(ReviewSpeedup(s, cfg, status, all, all[i], height), cfg, status, all, i + 1, height);
    }
  }

  /** When every listed id is stored, the snapshot has one record per id, in list order. */
  lemma {:induction false} RecordsAreListed(txs: map<Txid, CoordinatedTx>, ids: seq<Txid>)
    requires forall t :: t in ids ==> t in txs
    ensures |Records(txs, ids)| == |ids|
    ensures forall i :: 0 <= i < |ids| ==> Records(txs, ids)[i] == txs[ids[i]]
  {
    if ids != [] {
      RecordsAreListed(txs, ids[1..]);
    }
  }

  lemma SnapshotOrder(s: State)
    requires Inv(s)
    ensures var all := SpeedupRecords(s);
            forall k, j :: 0 <= k < j < |all| ==> all[k].txid != all[j].txid && !Ancestor(s, all[j].txid, all[k].txid)
  {
    assert OrderOk(s) && NoDup(s.speedups);
    hide Inv, SpeedupRecords, Ancestor;
    ListedSnapshot(s);
    var all := SpeedupRecords(s);
    forall k, j | 0 <= k < j < |all| ensures all[k].txid != all[j].txid && !Ancestor(s, all[j].txid, all[k].txid) {
      assert all[k].txid == s.speedups[k] && all[j].txid == s.speedups[j];
    }
  }

  lemma ReviewStarts(s: State)
    requires Inv(s)
    ensures Reviewing(s, SpeedupRecords(s), 0)
  {
    hide Inv, SpeedupRecords, SameShape, Ancestor;
    ListedSnapshot(s);
    SnapshotOrder(s);
    var all := SpeedupRecords(s);
    forall z | z in s.speedups ensures exists k :: 0 <= k < |all| && all[k].txid == z {
      var k :| 0 <= k < |s.speedups| && s.speedups[k] == z;
      assert all[k].txid == z;
    }
    forall k | 0 <= k < |all| ensures SameShape(all[k], all[k]) {
      SameShapeReflexive(all[k]);
    }
  }

  /** The snapshot holds the stored records, one per list entry. */
  lemma ListedSnapshot(s: State)
    requires Inv(s)
    ensures |SpeedupRecords(s)| == |s.speedups|
    ensures forall j :: 0 <= j < |s.speedups| ==>
              && s.speedups[j] in s.txs
              && SpeedupRecords(s)[j] == s.txs[s.speedups[j]]
              && SpeedupRecords(s)[j].txid == s.speedups[j]
  {
    assert KeysOk(s) && ListOk(s);
    hide Inv, Records;
    RecordsAreListed(s.txs, s.speedups);
  }

  /** Step 2: review every speedup against one snapshot. */
  lemma ReviewSpeedupsKeepsInv(s: State, cfg: Config, status: Txid -> ChainStatus, height: BlockHeight)
    requires Inv(s)
    ensures Inv(ReviewSpeedups(s, cfg, status, height))
  {
    hide Inv, Reviewing;
    ReviewStarts(s);
    ReviewFromKeepsInv(s, cfg, status, SpeedupRecords(s), 0, height);
  }
}

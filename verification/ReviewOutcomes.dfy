/** Exactly where a review of the speedups leaves each of them (src/engines/speedup_engine.rs:63-133). */
module ReviewOutcomes {
  import opened Types
  import opened Oracles
  import opened States
  import opened Failures
  import opened Engines
  import opened Invariants
  import opened Evolution
  import opened FailureLaws
  import opened CascadeLaws
  import opened ReviewLaws
  import BuildLaws
  import opened CreationLaws
  import opened Runs
  import opened LifecycleLaws

  predicate IsReplaced(r: CoordinatedTx, all: seq<CoordinatedTx>) {
    r.HasLiveReplacement(all)
  }

  /** Where its own review takes a speedup. */
  function OwnMove(status: Txid -> ChainStatus, all: seq<CoordinatedTx>, r: CoordinatedTx): TransactionState {
    if !InFlight(r) then r.state
    else
      match status(r.txid)
      case SeenInMempool => InMempool
      case NotFound => if IsReplaced(r, all) then r.state else ToDispatch
      case Settled => Finalized
      case Mined => Confirmed
      case Orphaned => InMempool
      case Unclear => r.state
  }

  /** The record its own review leaves. */
  function OwnReview(cfg: Config, status: Txid -> ChainStatus, all: seq<CoordinatedTx>, r: CoordinatedTx, height: BlockHeight):
    CoordinatedTx
  {
    if !InFlight(r) then r
    else
      match status(r.txid)
      case SeenInMempool => if r.state.Confirmed? then r.(state := InMempool, broadcastBlockHeight := Some(height)) else r
      case NotFound =>
        if IsReplaced(r, all) then r
        else r.(state := ToDispatch,
                failGuardUntil := if r.failGuardUntil.Some? then r.failGuardUntil else Some(height + cfg.maxMonitoringConfirmations))
      case Settled => r.(state := Finalized, settledBlockHeight := Some(height))
      case Mined => r.(state := Confirmed)
      case Orphaned => r.(state := InMempool)
      case Unclear => r
  }

  lemma OwnReviewMoves(cfg: Config, status: Txid -> ChainStatus, all: seq<CoordinatedTx>, r: CoordinatedTx, height: BlockHeight)
    ensures OwnReview(cfg, status, all, r, height).state == OwnMove(status, all, r)
  {
    hide IsReplaced;
  }

  predicate Unsettled(state: TransactionState) {
    state.ToDispatch? || state.InMempool?
  }

  /** The speedup `f` finalizes in this review and the chain it replaced includes `t`. */
  predicate Sweeps(s: State, status: Txid -> ChainStatus, f: CoordinatedTx, t: Txid) {
    InFlight(f) && status(f.txid).Settled? && f.IsRBF() && t in Visited(s, f.kind.speedup.predecessor)
  }

  // ---------------------------------------------------------------- one review

  lemma FinalizeState(s: State, tx: CoordinatedTx, height: BlockHeight, t: Txid)
    requires tx.txid in s.txs && s.txs[tx.txid] == tx && InFlight(tx) && tx.kind.Speedup? && t in s.txs
    ensures var s' := FinalizeSpeedup(s, tx, height);
      && t in s'.txs
      && s'.txs[t] == if t == tx.txid then tx.(state := Finalized, settledBlockHeight := Some(height))
                      else if tx.IsRBF() && t in Visited(s, tx.kind.speedup.predecessor) then WalkedOver(s.txs[t], height)
                      else s.txs[t]
  {
    hide Visited, SettleReplacedChain, Evolves, FinalizeSpeedup;
    var finalized := SettleTx(s, tx.txid, Finalized, height);
    FinalizedRecords(s, tx, height);
    SettleShape(s, tx.txid, height);
    if tx.IsRBF() {
      VisitedStable(s, finalized, tx.kind.speedup.predecessor);
      WalkSettles(finalized, tx.kind.speedup.predecessor, height, t);
    }
  }

  lemma OthersState(s: State, cfg: Config, status: Txid -> ChainStatus, all: seq<CoordinatedTx>, tx: CoordinatedTx,
                    height: BlockHeight, t: Txid)
    requires tx.txid in s.txs && s.txs[tx.txid] == tx && tx.kind.Speedup? && t in s.txs && t != tx.txid
    ensures var s' := ReviewSpeedup(s, cfg, status, all, tx, height);
      && t in s'.txs
      && s'.txs[t] == if Sweeps(s, status, tx, t) then WalkedOver(s.txs[t], height) else s.txs[t]
  {
    hide FinalizeSpeedup, Visited;
    if InFlight(tx) && status(tx.txid).Settled? {
      FinalizeState(s, tx, height, t);
    }
  }

  lemma OwnState(s: State, cfg: Config, status: Txid -> ChainStatus, all: seq<CoordinatedTx>, tx: CoordinatedTx,
                 height: BlockHeight)
    requires tx.txid in s.txs && s.txs[tx.txid] == tx && tx.kind.Speedup?
    ensures var s' := ReviewSpeedup(s, cfg, status, all, tx, height);
            tx.txid in s'.txs && s'.txs[tx.txid] == OwnReview(cfg, status, all, tx, height)
  {
    hide FinalizeSpeedup;
    if InFlight(tx) && status(tx.txid).Settled? {
      FinalizeState(s, tx, height, tx.txid);
    }
  }

  /** The walk reads shapes and lineage only. */
  lemma {:induction false} VisitedTouched(s: State, s': State, t: Txid, x: Txid)
    requires Touches(s, s', x)
    ensures Visited(s', t) == Visited(s, t)
    decreases Rank(s, t)
  {
    if t in s.txs {
      assert SameShape(s.txs[t], s'.txs[t]);
      hide Touches, SameShape;
      assert s'.lineage == s.lineage by { TouchesLineage(s, s', x); }
      if s.txs[t].IsRBF() && Rank(s, s.txs[t].kind.speedup.predecessor) < Rank(s, t) {
        VisitedTouched(s, s', s.txs[t].kind.speedup.predecessor, x);
      }
    } else {
      assert t !in s'.txs;
    }
  }

  lemma TouchesLineage(s: State, s': State, x: Txid)
    requires Touches(s, s', x)
    ensures s'.lineage == s.lineage
  {}

  lemma SweepsStable(s: State, s': State, x: Txid, status: Txid -> ChainStatus, f: CoordinatedTx, t: Txid)
    requires Touches(s, s', x)
    ensures Sweeps(s', status, f, t) == Sweeps(s, status, f, t)
  {
    hide Touches, Visited;
    if f.IsRBF() {
      VisitedTouched(s, s', f.kind.speedup.predecessor, x);
    }
  }

  // ---------------------------------------------------------------- the rest of a review

  ghost predicate SweptFrom(s: State, status: Txid -> ChainStatus, all: seq<CoordinatedTx>, i: nat, t: Txid) {
    exists j :: i <= j < |all| && Sweeps(s, status, all[j], t)
  }

  lemma SweptNext(s: State, s': State, x: Txid, status: Txid -> ChainStatus, all: seq<CoordinatedTx>, i: nat, t: Txid)
    requires i < |all| && Touches(s, s', x)
    ensures SweptFrom(s, status, all, i, t) <==> Sweeps(s, status, all[i], t) || SweptFrom(s', status, all, i + 1, t)
  {
    hide Touches, Sweeps;
    forall j | i <= j < |all| ensures Sweeps(s', status, all[j], t) == Sweeps(s, status, all[j], t) {
      SweepsStable(s, s', x, status, all[j], t);
    }
  }

  lemma ItemTouches(s: State, cfg: Config, status: Txid -> ChainStatus, all: seq<CoordinatedTx>, i: nat, height: BlockHeight)
    requires i < |all| && Reviewing(s, all, i)
    ensures Touches(s, ReviewSpeedup(s, cfg, status, all, all[i], height), all[i].txid)
  {
    assert Inv(s) && all[i].txid in s.speedups && all[i].txid in s.txs && s.txs[all[i].txid] == all[i];
    assert Masked(s, all[i].txid) ==> all[i].HasLiveReplacement(all) by {
      if Masked(s, all[i].txid) {
        SnapshotSeesMask(s, all, i);
      }
    }
    hide Inv, Reviewing, ReviewSpeedup, Masked, Touches;
    ReviewSpeedupTouches(s, cfg, status, all, all[i], height);
  }

  /** After its own turn a speedup changes only when a later one finalizes over it. */
  lemma {:induction false} AfterOwnTurn(s: State, cfg: Config, status: Txid -> ChainStatus, all: seq<CoordinatedTx>, i: nat,
                                        height: BlockHeight, t: Txid)
    requires i <= |all| && Reviewing(s, all, i) && t in s.txs
    requires forall j :: i <= j < |all| ==> all[j].txid != t
    ensures var s' := ReviewSpeedupsFrom(s, cfg, status, all, i, height);
      && t in s'.txs
      && s'.txs[t] == if SweptFrom(s, status, all, i, t) then WalkedOver(s.txs[t], height) else s.txs[t]
    decreases |all| - i
  {
    hide Reviewing, ReviewSpeedup, Touches, Sweeps, LineageOk, RbfOk;
    if i < |all| {
      var next := ReviewSpeedup(s, cfg, status, all, all[i], height);
      ReviewingFacts(s, all, i);
      OthersState(s, cfg, status, all, all[i], height, t);
      ItemTouches(s, cfg, status, all, i, height);
      SweptNext(s, next, all[i].txid, status, all, i, t);
      ReviewSpeedupAdvances(s, cfg, status, all, i, height);
      AfterOwnTurn(next, cfg, status, all, i + 1, height, t);
    }
  }

  lemma SweepsOlder(s: State, status: Txid -> ChainStatus, f: CoordinatedTx, t: Txid)
    requires LineageOk(s) && RbfOk(s) && f.txid in s.txs && s.txs[f.txid] == f && Sweeps(s, status, f, t)
    ensures Ancestor(s, t, f.txid)
  {
    var p := f.kind.speedup.predecessor;
    assert IsSpeedup(s, f.txid) && Supersedes(s, f.txid, p);
    SupersededIsAncestor(s, f.txid, p);
    AncestorRank(s, p, f.txid);
    VisitedAreAncestors(s, p, t);
  }

  /** Reviews of earlier entries of the list never touch `t`: it is no ancestor of theirs. */
  lemma EarlierSpares(s: State, cfg: Config, status: Txid -> ChainStatus, all: seq<CoordinatedTx>, i: nat, k: nat,
                      height: BlockHeight)
    requires i < k < |all| && Reviewing(s, all, i)
    ensures !Sweeps(s, status, all[i], all[k].txid)
    ensures all[k].txid in ReviewSpeedup(s, cfg, status, all, all[i], height).txs
    ensures ReviewSpeedup(s, cfg, status, all, all[i], height).txs[all[k].txid] == all[k]
  {
    ReviewingFacts(s, all, i);
    ItemTouches(s, cfg, status, all, i, height);
    assert !Ancestor(s, all[k].txid, all[i].txid) && all[k].txid != all[i].txid;
    hide Inv, ReviewSpeedup, Sweeps, LineageOk, RbfOk, SameShape;
    if Sweeps(s, status, all[i], all[k].txid) {
      SweepsOlder(s, status, all[i], all[k].txid);
    }
  }

  lemma OwnWalkSpares(s: State, status: Txid -> ChainStatus, f: CoordinatedTx)
    requires LineageOk(s) && RbfOk(s) && f.txid in s.txs && s.txs[f.txid] == f
    ensures !Sweeps(s, status, f, f.txid)
  {
    hide LineageOk, RbfOk, Sweeps;
    if Sweeps(s, status, f, f.txid) {
      SweepsOlder(s, status, f, f.txid);
      NotOwnAncestor(s, f.txid);
    }
  }

  lemma ReviewingDistinct(s: State, all: seq<CoordinatedTx>, i: nat, k: nat)
    requires k < |all| && Reviewing(s, all, i)
    ensures forall j :: k < j < |all| ==> all[j].txid != all[k].txid
  {}

  lemma {:induction false} BeforeOwnTurn(s: State, cfg: Config, status: Txid -> ChainStatus, all: seq<CoordinatedTx>, i: nat,
                                         k: nat, height: BlockHeight)
    requires i <= k < |all| && Reviewing(s, all, i)
    ensures var s' := ReviewSpeedupsFrom(s, cfg, status, all, i, height);
            var own := OwnReview(cfg, status, all, all[k], height);
      && all[k].txid in s'.txs
      && s'.txs[all[k].txid] == if SweptFrom(s, status, all, i, all[k].txid) then WalkedOver(own, height) else own
    decreases k - i
  {
    hide Reviewing, ReviewSpeedup, Touches, Sweeps, LineageOk, RbfOk, OwnReview, SweptFrom, WalkedOver;
    var next := ReviewSpeedup(s, cfg, status, all, all[i], height);
    ReviewingDistinct(s, all, i, k);
    ReviewingFacts(s, all, i);
    ItemTouches(s, cfg, status, all, i, height);
    SweptNext(s, next, all[i].txid, status, all, i, all[k].txid);
    ReviewSpeedupAdvances(s, cfg, status, all, i, height);
    if i == k {
      OwnState(s, cfg, status, all, all[i], height);
      OwnWalkSpares(s, status, all[i]);
      AfterOwnTurn(next, cfg, status, all, i + 1, height, all[k].txid);
    } else {
      EarlierSpares(s, cfg, status, all, i, k, height);
      BeforeOwnTurn(next, cfg, status, all, i + 1, k, height);
    }
  }

  /** Some speedup finalizes in this review and replaced `t`, directly or through a chain. */
  ghost predicate Swept(s: State, status: Txid -> ChainStatus, t: Txid) {
    SweptFrom(s, status, SpeedupRecords(s), 0, t)
  }

  /** What a review leaves of every listed speedup: what its own chain answer makes of it, and, when a speedup that replaced it
      finalizes in the same review, settled Failed unless it is then confirmed or finalized. */
  lemma ReviewRecord(s: State, cfg: Config, status: Txid -> ChainStatus, height: BlockHeight, t: Txid)
    requires Inv(s) && t in s.speedups
    ensures var s' := ReviewSpeedups(s, cfg, status, height);
      && t in s.txs && t in s'.txs
      && var own := OwnReview(cfg, status, SpeedupRecords(s), s.txs[t], height);
         s'.txs[t] == if Swept(s, status, t) then WalkedOver(own, height) else own
    ensures IsReplaced(s.txs[t], SpeedupRecords(s)) <==> Masked(s, t)
  {
    InvParts(s);
    BuildLaws.MaskIsReplacement(s, t);
    hide Inv, Reviewing, OwnReview, SweptFrom, Sweeps, SpeedupRecords, WalkedOver, KeysOk, LineageOk, RbfOk, QueueOk, InputsOk;
    hide LifecycleOk, ParentsOk, ReservedOk, Masked;
    ListedSnapshot(s);
    ReviewStarts(s);
    var k :| 0 <= k < |s.speedups| && s.speedups[k] == t;
    BeforeOwnTurn(s, cfg, status, SpeedupRecords(s), 0, k, height);
  }

  /** The states alone: where its own chain answer takes it, and from there to Failed exactly when it is waiting or in the mempool
      and a speedup that replaced it finalizes in the same review. */
  lemma ReviewOutcome(s: State, cfg: Config, status: Txid -> ChainStatus, height: BlockHeight, t: Txid)
    requires Inv(s) && t in s.speedups
    ensures var s' := ReviewSpeedups(s, cfg, status, height);
      && t in s.txs && t in s'.txs
      && var own := OwnMove(status, SpeedupRecords(s), s.txs[t]);
         s'.txs[t].state == if Swept(s, status, t) && Unsettled(own) then Failed else own
  {
    hide Inv, OwnReview, OwnMove, Swept, SpeedupRecords, ReviewSpeedups;
    ReviewRecord(s, cfg, status, height, t);
    OwnReviewMoves(cfg, status, SpeedupRecords(s), s.txs[t], height);
  }

  lemma SweptIsMasked(s: State, status: Txid -> ChainStatus, t: Txid)
    requires Inv(s) && Swept(s, status, t) && Live(s, t)
    ensures Masked(s, t)
  {
    hide Inv, SpeedupRecords, Sweeps, LineageOk, RbfOk, Masked, KeysOk, ListOk, QueueOk, InputsOk, LifecycleOk, ParentsOk;
    hide ReservedOk, MaskOk;
    InvParts(s);
    InvMasks(s);
    ListedSnapshot(s);
    var all := SpeedupRecords(s);
    var j :| 0 <= j < |all| && Sweeps(s, status, all[j], t);
    SweepsInFlight(s, status, all[j], t);
    SweepsOlder(s, status, all[j], t);
    ListedIsSpeedup(s, all[j].txid);
    OlderIsMasked(s, t, all[j].txid);
  }

  lemma InvMasks(s: State)
    requires Inv(s)
    ensures MaskOk(s)
  {}

  lemma SweepsInFlight(s: State, status: Txid -> ChainStatus, f: CoordinatedTx, t: Txid)
    requires Sweeps(s, status, f, t)
    ensures InFlight(f)
  {}

  lemma OlderIsMasked(s: State, x: Txid, y: Txid)
    requires MaskOk(s) && Live(s, x) && Live(s, y) && Ancestor(s, x, y)
    ensures Masked(s, x)
  {}

  /** The cases of one record. */
  lemma EdgesOf(status: Txid -> ChainStatus, all: seq<CoordinatedTx>, r: CoordinatedTx, swept: bool)
    requires swept && r.state.Confirmed? ==> IsReplaced(r, all)
    ensures var own := OwnMove(status, all, r);
            var after := if swept && Unsettled(own) then Failed else own;
      && (!r.state.CanTransitionTo(after) <==>
            r.state.Confirmed? && (status(r.txid).SeenInMempool? || status(r.txid).Orphaned?) && swept)
      && (!r.state.CanTransitionTo(after) ==> r.state.Confirmed? && after.Failed?)
  {
    hide IsReplaced;
  }

  /** The one move of a review that is not an allowed edge: a confirmed speedup that a reorg returns to the mempool and
      that is settled, in the same review, because a speedup that replaced it finalizes. */
  lemma TwoEdgesExactlyWhen(s: State, cfg: Config, status: Txid -> ChainStatus, height: BlockHeight, t: Txid)
    requires Inv(s) && t in s.speedups
    ensures t in s.txs && t in ReviewSpeedups(s, cfg, status, height).txs
    ensures var a, b := s.txs[t].state, ReviewSpeedups(s, cfg, status, height).txs[t].state;
            !a.CanTransitionTo(b)
            <==> a.Confirmed? && (status(t).SeenInMempool? || status(t).Orphaned?) && Swept(s, status, t)
    ensures var a, b := s.txs[t].state, ReviewSpeedups(s, cfg, status, height).txs[t].state;
            !a.CanTransitionTo(b) ==> a.Confirmed? && b.Failed?
  {
    hide Inv, OwnMove, Swept, ReviewSpeedups, SpeedupRecords, IsReplaced, KeysOk, ListOk, LineageOk, RbfOk, QueueOk, InputsOk;
    hide LifecycleOk, ParentsOk, ReservedOk, Masked;
    ReviewOutcome(s, cfg, status, height, t);
    InvParts(s);
    ListedIsSpeedup(s, t);
    StoredTxid(s, t);
    if Swept(s, status, t) && s.txs[t].state.Confirmed? {
      SweptIsMasked(s, status, t);
      BuildMask(s, t);
    }
    EdgesOf(status, SpeedupRecords(s), s.txs[t], Swept(s, status, t));
  }

  lemma StoredTxid(s: State, t: Txid)
    requires KeysOk(s) && t in s.txs
    ensures s.txs[t].txid == t
  {}

  lemma BuildMask(s: State, t: Txid)
    requires KeysOk(s) && ListOk(s) && t in s.txs && Masked(s, t)
    ensures IsReplaced(s.txs[t], SpeedupRecords(s))
  {
    BuildLaws.MaskIsReplacement(s, t);
  }
}

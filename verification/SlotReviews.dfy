/** Which slots are taken after a review of the speedups, exactly. */
module SlotReviews {
  import opened Types
  import opened Oracles
  import opened States
  import opened Failures
  import opened Engines
  import opened Invariants
  import opened Evolution
  import opened FailureLaws
  import opened CascadeLaws
  import opened FinalizeLaws
  import opened ReviewLaws
  import opened CreationLaws
  import opened LifecycleLaws
  import opened ReviewOutcomes
  import opened SlotLaws

  // ---------------------------------------------------------------- what a review does to masks

  /** No mask appears, and one disappears only from a speedup that has failed. */
  ghost predicate MasksKept(s: State, s': State) {
    forall x :: x in s.txs ==>
      && x in s'.txs
      && (s.txs[x].state.Failed? ==> s'.txs[x].state.Failed?)
      && (Masked(s', x) ==> Masked(s, x))
      && (Masked(s, x) && !s'.txs[x].state.Failed? ==> Masked(s', x))
  }

  lemma MasksKeptSame(s: State)
    ensures MasksKept(s, s)
  {}

  lemma MasksKeptTransitive(a: State, b: State, c: State)
    requires MasksKept(a, b) && MasksKept(b, c)
    ensures MasksKept(a, c)
  {
    hide Masked;
  }

  lemma PutMasks(s: State, t: Txid, r: CoordinatedTx)
    requires IsSpeedup(s, t) && r.kind == s.txs[t].kind && r.txid == s.txs[t].txid && r.state.Failed? == s.txs[t].state.Failed?
    ensures MasksKept(s, Put(s, t, r))
  {
    var s' := Put(s, t, r);
    assert forall z :: Live(s', z) == Live(s, z);
    assert forall z, x :: Supersedes(s', z, x) == Supersedes(s, z, x);
    hide Live, Supersedes;
    forall x | x in s.txs ensures Masked(s', x) == Masked(s, x) {
      assert s'.txs[x].IsBeingReplaced() == s.txs[x].IsBeingReplaced();
      if z :| z in s.speedups && Live(s, z) && Supersedes(s, z, x) {
        assert z in s'.speedups && Live(s', z) && Supersedes(s', z, x);
      }
      if z :| z in s'.speedups && Live(s', z) && Supersedes(s', z, x) {
        assert z in s.speedups && Live(s, z) && Supersedes(s, z, x);
      }
    }
  }

  lemma UnlistReads(s: State, t: Txid)
    ensures var s' := ReplaceFundingOnFinalize(s, t);
      && s'.txs == s.txs
      && (forall z :: z in s.speedups && z != t ==> z in s'.speedups)
      && (forall z :: z in s'.speedups ==> z in s.speedups)
  {}

  lemma WalkStored(s: State, tx: CoordinatedTx, height: BlockHeight, x: Txid)
    ensures x in RemoveReplacedRbf(s, tx, height).txs <==> x in s.txs
  {
    if tx.IsRBF() {
      WalkKeys(s, tx.kind.speedup.predecessor, height);
    }
  }

  lemma WalkStateBack(s: State, tx: CoordinatedTx, height: BlockHeight, x: Txid)
    requires x in s.txs
    ensures x in RemoveReplacedRbf(s, tx, height).txs
    ensures var y := RemoveReplacedRbf(s, tx, height).txs[x];
            (y.state == s.txs[x].state || y.state.Failed?) && y.kind == s.txs[x].kind && y.kind.Speedup? == s.txs[x].kind.Speedup?
  {
    if tx.IsRBF() {
      WalkSettles(s, tx.kind.speedup.predecessor, height, x);
    }
  }

  lemma MaskedBy(s: State, walked: State, s': State, t: Txid, x: Txid)
    requires s'.txs == walked.txs && forall z :: z in s.speedups && z != t ==> z in s'.speedups
    requires x in walked.txs && t in s.txs && s.txs[t].state.Finalized?
    requires walked.txs[x].IsBeingReplaced()
             || exists z :: z in s.speedups && Waiting(s, z) && Live(walked, z) && Supersedes(walked, z, x)
    ensures Masked(s', x)
  {
    if !walked.txs[x].IsBeingReplaced() {
      var z :| z in s.speedups && Waiting(s, z) && Live(walked, z) && Supersedes(walked, z, x);
      assert z in s'.speedups && Live(s', z) && Supersedes(s', z, x);
    }
  }

  /** A mask seen after the walk and the unlisting was there before: marks stay, speedups only leave the live set. */
  lemma MaskWasThere(s: State, walked: State, s': State, x: Txid)
    requires s'.txs == walked.txs && (forall z :: z in s'.speedups ==> z in s.speedups) && x in s.txs
    requires forall y :: y in s.txs ==>
      && y in walked.txs && walked.txs[y].kind == s.txs[y].kind
      && (walked.txs[y].state == s.txs[y].state || walked.txs[y].state.Failed?)
    requires forall y :: y in walked.txs ==> y in s.txs
    ensures Masked(s', x) ==> Masked(s, x)
  {
    if Masked(s', x) && !s'.txs[x].IsBeingReplaced() {
      var z :| z in s'.speedups && Live(s', z) && Supersedes(s', z, x);
      assert z in s.speedups && Live(s, z) && Supersedes(s, z, x);
    }
  }

  /** The walk below a finalized speedup and its unlisting keep every mask. */
  lemma WalkMasksKept(s: State, tx: CoordinatedTx, height: BlockHeight)
    requires Inv(s) && Matches(s, tx) && tx.kind.Speedup? && Live(s, tx.txid) && s.txs[tx.txid].state.Finalized?
    ensures MasksKept(s, ReplaceFundingOnFinalize(RemoveReplacedRbf(s, tx, height), tx.txid))
  {
    hide Inv, RemoveReplacedRbf, ReplaceFundingOnFinalize, Matches, Masked, Touches, Live;
    var walked := RemoveReplacedRbf(s, tx, height);
    var s' := ReplaceFundingOnFinalize(walked, tx.txid);
    UnlistReads(walked, tx.txid);
    WalkTouches(s, tx, height);
    forall y ensures y in walked.txs <==> y in s.txs {
      WalkStored(s, tx, height, y);
    }
    forall y | y in s.txs
      ensures y in walked.txs && walked.txs[y].kind == s.txs[y].kind
      ensures walked.txs[y].state == s.txs[y].state || walked.txs[y].state.Failed?
    {
      WalkStateBack(s, tx, height, y);
    }
    assert tx.txid in s.txs by { MatchStored(s, tx); }
    forall x | x in s.txs
      ensures Masked(s', x) ==> Masked(s, x)
      ensures Masked(s, x) && !s'.txs[x].state.Failed? ==> Masked(s', x)
    {
      MaskWasThere(s, walked, s', x);
      if Masked(s, x) && !walked.txs[x].state.Failed? {
        MaskedIsSpeedup(s, x);
        WalkMasks(s, tx, height, x);
        MaskedBy(s, walked, s', tx.txid, x);
      }
    }
  }

  lemma MatchStored(s: State, tx: CoordinatedTx)
    requires Matches(s, tx)
    ensures tx.txid in s.txs
  {}

  lemma MaskedIsSpeedup(s: State, x: Txid)
    requires Inv(s) && Masked(s, x)
    ensures IsSpeedup(s, x)
  {
    hide Reservations, LifecycleOk, ParentsOk, OnePrebuilt, OrderOk, InputsOk, ChangeOk, QueueOk;
    if !s.txs[x].IsBeingReplaced() {
      var z :| z in s.speedups && Live(s, z) && Supersedes(s, z, x);
      SupersededIsAncestor(s, z, x);
      AncestorRank(s, x, z);
    }
  }

  lemma FinalizeMasks(s: State, tx: CoordinatedTx, height: BlockHeight)
    requires Inv(s) && tx.txid in s.speedups && tx.txid in s.txs && s.txs[tx.txid] == tx && InFlight(tx) && tx.kind.Speedup?
    ensures MasksKept(s, FinalizeSpeedup(s, tx, height))
  {
    hide Inv, MasksKept, ReplaceFundingOnFinalize, RemoveReplacedRbf, Evolves;
    var finalized := SettleTx(s, tx.txid, Finalized, height);
    FinalizeKeepsInv(s, tx.txid, height);
    assert finalized == Put(s, tx.txid, tx.(state := Finalized, settledBlockHeight := Some(height)));
    PutMasks(s, tx.txid, tx.(state := Finalized, settledBlockHeight := Some(height)));
    assert Matches(finalized, tx) by { SameShapeReflexive(tx); }
    hide Matches;
    WalkMasksKept(finalized, tx, height);
    MasksKeptTransitive(s, finalized, FinalizeSpeedup(s, tx, height));
  }

  /** A review finalizes `tx` or rewrites its lifecycle fields. */
  lemma ReviewCases(s: State, cfg: Config, status: Txid -> ChainStatus, all: seq<CoordinatedTx>, tx: CoordinatedTx,
                    height: BlockHeight)
    requires tx.txid in s.txs && s.txs[tx.txid] == tx
    ensures var s' := ReviewSpeedup(s, cfg, status, all, tx, height);
      || s' == s
      || (InFlight(tx) && status(tx.txid).Settled? && s' == FinalizeSpeedup(s, tx, height))
      || (tx.txid in s'.txs && s' == Put(s, tx.txid, s'.txs[tx.txid]) && s'.txs[tx.txid].kind == tx.kind
          && s'.txs[tx.txid].txid == tx.txid && !s'.txs[tx.txid].state.Failed? && !tx.state.Failed?)
  {
    hide FinalizeSpeedup;
  }

  lemma ItemMasks(s: State, cfg: Config, status: Txid -> ChainStatus, all: seq<CoordinatedTx>, i: nat, height: BlockHeight)
    requires i < |all| && Reviewing(s, all, i)
    ensures MasksKept(s, ReviewSpeedup(s, cfg, status, all, all[i], height))
  {
    var tx := all[i];
    assert Inv(s) && tx.txid in s.speedups && tx.txid in s.txs && s.txs[tx.txid] == tx;
    ReviewingFacts(s, all, i);
    hide Inv, Reviewing, ReviewSpeedup, FinalizeSpeedup, MasksKept, LineageOk, RbfOk;
    var s' := ReviewSpeedup(s, cfg, status, all, tx, height);
    ReviewCases(s, cfg, status, all, tx, height);
    MasksKeptSame(s);
    if InFlight(tx) {
      FinalizeMasks(s, tx, height);
    }
    if s' != s && s' != FinalizeSpeedup(s, tx, height) {
      PutMasks(s, tx.txid, s'.txs[tx.txid]);
    }
  }

  // ---------------------------------------------------------------- what a review does to the list

  lemma ItemLists(s: State, cfg: Config, status: Txid -> ChainStatus, all: seq<CoordinatedTx>, i: nat, height: BlockHeight, t: Txid)
    requires i < |all| && Reviewing(s, all, i)
    ensures var s' := ReviewSpeedup(s, cfg, status, all, all[i], height);
      && (t in s'.speedups ==> t in s.speedups)
      && (t in s.speedups && (all[i].txid == t ==> !(InFlight(all[i]) && status(t).Settled?)) ==> t in s'.speedups)
  {
    var tx := all[i];
    assert tx.txid in s.txs && s.txs[tx.txid] == tx;
    ItemTouches(s, cfg, status, all, i, height);
    ReviewCases(s, cfg, status, all, tx, height);
    hide Reviewing, ReviewSpeedup, FinalizeSpeedup, Inv, SameShape;
  }

  lemma {:induction false} ReviewFromKeeps(s: State, cfg: Config, status: Txid -> ChainStatus, all: seq<CoordinatedTx>, i: nat,
                                           height: BlockHeight, t: Txid)
    requires i <= |all| && Reviewing(s, all, i)
    ensures var s' := ReviewSpeedupsFrom(s, cfg, status, all, i, height);
      && MasksKept(s, s')
      && (t in s'.speedups ==> t in s.speedups)
      && (t in s.speedups && (forall j :: i <= j < |all| && all[j].txid == t ==> !(InFlight(all[j]) && status(t).Settled?)) ==>
            t in s'.speedups)
    decreases |all| - i
  {
    hide Reviewing, ReviewSpeedup, MasksKept, InFlight;
    if i == |all| {
      MasksKeptSame(s);
    } else {
      var next := ReviewSpeedup(s, cfg, status, all, all[i], height);
      ItemMasks(s, cfg, status, all, i, height);
      ItemLists(s, cfg, status, all, i, height, t);
      ReviewSpeedupAdvances(s, cfg, status, all, i, height);
      ReviewFromKeeps(next, cfg, status, all, i + 1, height, t);
      MasksKeptTransitive(s, next, ReviewSpeedupsFrom(s, cfg, status, all, i, height));
    }
  }

  // ---------------------------------------------------------------- the slots after a review

  /** `t` takes a slot once reviewed: it is not being replaced, and its own chain answer leaves it waiting or in the
      mempool. */
  ghost predicate HoldsAfter(s: State, status: Txid -> ChainStatus, t: Txid) {
    t in s.speedups && t in s.txs && !Masked(s, t) && Unsettled(OwnMove(status, SpeedupRecords(s), s.txs[t]))
  }

  lemma HolderAfter(s: State, cfg: Config, status: Txid -> ChainStatus, height: BlockHeight, t: Txid)
    requires Inv(s)
    ensures t in Occupied(ReviewSpeedups(s, cfg, status, height)) <==> HoldsAfter(s, status, t)
  {
    hide Inv, Reviewing, SpeedupRecords, Masked, MasksKept, Swept, OwnMove, ReviewSpeedupsFrom;
    var s', all := ReviewSpeedups(s, cfg, status, height), SpeedupRecords(s);
    ReviewStarts(s);
    ListedSnapshot(s);
    ReviewFromKeeps(s, cfg, status, all, 0, height, t);
    if t in s.speedups {
      ReviewOutcome(s, cfg, status, height, t);
      ListedKeepsKind(s, cfg, status, height, t);
      KeptMask(s, s', t);
      ListedIsSpeedupInv(s, t);
      if Swept(s, status, t) && Live(s, t) {
        SweptIsMasked(s, status, t);
      }
      OwnMoveLive(status, all, s.txs[t]);
      forall j | 0 <= j < |all| && all[j].txid == t ensures all[j] == s.txs[t] {
        assert s.speedups[j] == t;
      }
    }
  }

  lemma ListedIsSpeedupInv(s: State, t: Txid)
    requires Inv(s) && t in s.speedups
    ensures IsSpeedup(s, t) && s.txs[t].txid == t
  {}

  lemma KeptMask(s: State, s': State, t: Txid)
    requires MasksKept(s, s') && t in s.txs
    ensures t in s'.txs && (!s'.txs[t].state.Failed? ==> Masked(s', t) == Masked(s, t))
  {
    hide Masked;
  }

  lemma OwnMoveLive(status: Txid -> ChainStatus, all: seq<CoordinatedTx>, r: CoordinatedTx)
    ensures Unsettled(OwnMove(status, all, r)) ==> !r.state.Failed? && !(InFlight(r) && status(r.txid).Settled?)
  {}

  lemma ListedKeepsKind(s: State, cfg: Config, status: Txid -> ChainStatus, height: BlockHeight, t: Txid)
    requires Inv(s) && t in s.speedups
    ensures IsSpeedup(ReviewSpeedups(s, cfg, status, height), t)
  {
    ListedIsSpeedupInv(s, t);
    hide Inv;
    ReviewSpeedupsMoves(s, cfg, status, height);
    assert ReviewPath(s.txs[t], ReviewSpeedups(s, cfg, status, height).txs[t], height + cfg.maxMonitoringConfirmations);
  }

  /** The occupants that stay. */
  ghost function Staying(s: State, status: Txid -> ChainStatus): set<Txid> {
    set t | t in s.speedups && t in Occupied(s) && HoldsAfter(s, status, t)
  }

  /** The confirmations this review takes back: unreplaced speedups that return to the mempool or to dispatch. */
  ghost function TakenBack(s: State, status: Txid -> ChainStatus): set<Txid> {
    set t | t in s.speedups && t in s.txs && s.txs[t].state.Confirmed? && HoldsAfter(s, status, t)
  }

  /** The slots taken after a review are exactly those of the occupants that stay and of the confirmations it takes back;
      so it exceeds what it was by as much as confirmations are lost. */
  lemma ReviewSlotsExactly(s: State, cfg: Config, status: Txid -> ChainStatus, height: BlockHeight)
    requires Inv(s)
    ensures Occupied(ReviewSpeedups(s, cfg, status, height)) == Staying(s, status) + TakenBack(s, status)
    ensures Staying(s, status) !! TakenBack(s, status)
    ensures |Occupied(ReviewSpeedups(s, cfg, status, height))| == |Staying(s, status)| + |TakenBack(s, status)|
    ensures |Occupied(ReviewSpeedups(s, cfg, status, height))| <= |Occupied(s)| + |TakenBack(s, status)|
  {
    hide Inv, HoldsAfter, ReviewSpeedups, Masked;
    var after := Occupied(ReviewSpeedups(s, cfg, status, height));
    forall t ensures t in after <==> t in Staying(s, status) || t in TakenBack(s, status) {
      HolderAfter(s, cfg, status, height, t);
      HolderBefore(s, status, t);
    }
    SubsetSize(Staying(s, status), Occupied(s));
  }

  lemma HolderBefore(s: State, status: Txid -> ChainStatus, t: Txid)
    requires Inv(s)
    ensures HoldsAfter(s, status, t) ==> t in s.speedups && t in s.txs && (t in Occupied(s) || s.txs[t].state.Confirmed?)
    ensures t in Occupied(s) ==> t in s.txs && !s.txs[t].state.Confirmed?
  {
    hide Masked, SpeedupRecords;
    if HoldsAfter(s, status, t) {
      ListedIsSpeedupInv(s, t);
    }
  }
}

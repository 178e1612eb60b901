/** The slot bound: unreplaced speedups that wait or sit in the mempool never exceed the configured maximum,
    not even when an RBF fails and unmasks its predecessor. */
module SlotLaws {
  import opened Types
  import opened Oracles
  import Fees
  import opened States
  import opened Funding
  import opened Failures
  import opened Dispatching
  import opened Engines
  import opened Invariants
  import opened Evolution
  import opened FailureLaws
  import opened CascadeLaws
  import opened GrowthLaws
  import opened BuildLaws
  import opened ReviewLaws
  import opened DispatchLaws
  import opened OutcomeLaws
  import opened CreationLaws
  import opened Runs
  import opened LifecycleLaws
  import opened Ticks

  /** The record `f` settles is waiting or already Failed. */
  predicate MayFail(s: State, t: Txid) {
    t in s.txs && (s.txs[t].state.ToDispatch? || s.txs[t].state.Failed?)
  }

  lemma SnapshotFacts(s: State, d: CoordinatedTx)
    requires Snapshot(s, d) && MayFall(s, d)
    ensures Matches(s, d) && MayFail(s, d.txid)
  {}

  lemma ClientSnapshotStays(s: State, s': State, t: Txid, d: CoordinatedTx)
    requires ClientSnapshot(s, d) && Handles(s, s', t) && d.txid != t
    ensures ClientSnapshot(s', d)
  {}

  lemma ReviewTransactionFrame(s: State, cfg: Config, status: Txid -> ChainStatus, tx: CoordinatedTx, height: BlockHeight)
    ensures forall t :: t in s.txs && t != tx.txid ==>
              t in ReviewTransaction(s, cfg, status, tx, height).txs
              && ReviewTransaction(s, cfg, status, tx, height).txs[t] == s.txs[t]
  {}

  predicate InSlotState(r: CoordinatedTx) {
    r.state.ToDispatch? || r.state.InMempool?
  }

  ghost predicate Occupies(s: State, t: Txid) {
    IsSpeedup(s, t) && InSlotState(s.txs[t]) && !Masked(s, t)
  }

  /** The speedups that take a slot. */
  ghost function Occupied(s: State): set<Txid> {
    set t | t in s.speedups && Occupies(s, t)
  }

  // ---------------------------------------------------------------- frames

  /** Enough to see that no slot is newly taken. */
  ghost predicate NoNewSlots(s: State, s': State) {
    forall x :: x in s'.speedups && IsSpeedup(s', x) && InSlotState(s'.txs[x]) ==>
      && x in s.speedups && IsSpeedup(s, x) && InSlotState(s.txs[x])
      && (Masked(s, x) ==> Masked(s', x))
  }

  lemma NoNewSlotsShrink(s: State, s': State)
    requires NoNewSlots(s, s')
    ensures Occupied(s') <= Occupied(s) && |Occupied(s')| <= |Occupied(s)|
  {
    SubsetSize(Occupied(s'), Occupied(s));
  }

  /** The listed speedups read the same in both states. */
  ghost predicate SpeedupsSame(s: State, s': State) {
    && s'.speedups == s.speedups
    && (forall x :: x in s.speedups ==>
          && x in s.txs && x in s'.txs
          && s'.txs[x].state == s.txs[x].state
          && s'.txs[x].kind.Speedup? == s.txs[x].kind.Speedup?
          && s'.txs[x].IsBeingReplaced() == s.txs[x].IsBeingReplaced()
          && (forall p :: s'.txs[x].Supersedes(p) == s.txs[x].Supersedes(p)))
  }

  lemma SameSpeedupsSameSlots(s: State, s': State)
    requires SpeedupsSame(s, s')
    ensures Occupied(s') == Occupied(s)
  {
    forall x | x in s.speedups ensures Masked(s', x) == Masked(s, x) {
      if z :| z in s.speedups && Live(s, z) && Supersedes(s, z, x) {
        assert z in s'.speedups && Live(s', z) && Supersedes(s', z, x);
      }
      if z :| z in s'.speedups && Live(s', z) && Supersedes(s', z, x) {
        assert z in s.speedups && Live(s, z) && Supersedes(s, z, x);
      }
    }
    forall x | x in s.speedups ensures Occupies(s', x) == Occupies(s, x) {
      hide Masked;
      assert Masked(s', x) == Masked(s, x);
    }
  }

  // ---------------------------------------------------------------- one failure

  /** A Failed RBF left no mark on its predecessor. */
  ghost predicate Cleared(s: State, t: Txid) {
    IsSpeedup(s, t) && s.txs[t].state.Failed? ==>
      forall p :: Supersedes(s, t, p) && p in s.txs ==> !s.txs[p].IsBeingReplaced()
  }

  lemma {:induction false} ReleaseKeepsReplaced(s: State, us: seq<Utxo>, x: Txid)
    requires x in s.txs
    ensures x in ReleaseMarks(s, us).txs && ReleaseMarks(s, us).txs[x].IsBeingReplaced() == s.txs[x].IsBeingReplaced()
    decreases |us|
  {
    if us != [] {
      SetSpentFrame(s, us[0].op, false);
      hide SetSpent, Evolves;
      ReleaseKeepsReplaced(SetSpent(s, us[0].op, false), us[1..], x);
    }
  }

  /** Settling `d` clears the mark on its predecessor and no other. */
  lemma SettleMarks(s: State, d: CoordinatedTx, height: BlockHeight, fundingMissing: bool, x: Txid)
    requires x in s.txs
    ensures x in SettleFailedDispatch(s, d, height, fundingMissing).txs
    ensures SettleFailedDispatch(s, d, height, fundingMissing).txs[x].IsBeingReplaced()
            == (s.txs[x].IsBeingReplaced() && !d.Supersedes(x))
  {
    var settled := AddNews(SettleTx(s, d.txid, Failed, height), DispatchErrorNews(d));
    assert settled.txs[x].IsBeingReplaced() == s.txs[x].IsBeingReplaced();
    ReleaseKeepsReplaced(settled, d.Claimed(), x);
    hide ReleaseMarks, SettleTx;
  }

  lemma SettleKeepsCleared(s: State, d: CoordinatedTx, height: BlockHeight, fundingMissing: bool, t: Txid)
    requires Matches(s, d) && Cleared(s, t)
    ensures Cleared(SettleFailedDispatch(s, d, height, fundingMissing), t)
  {
    var s' := SettleFailedDispatch(s, d, height, fundingMissing);
    SettleEvolves(s, d, height, fundingMissing);
    EvolvesReadsSame(s, s');
    assert forall p :: d.Supersedes(p) == Supersedes(s, d.txid, p);
    hide SettleFailedDispatch, SameShape, Evolves, Matches;
    if IsSpeedup(s', t) && s'.txs[t].state.Failed? {
      assert t in s.txs;
      SettleStates(s, d, height, fundingMissing, t);
      forall p | Supersedes(s', t, p) && p in s'.txs ensures !s'.txs[p].IsBeingReplaced() {
        assert p in s.txs;
        SettleMarks(s, d, height, fundingMissing, p);
      }
    }
  }

  /** Only the failed speedup's predecessor can become unmasked. */
  lemma SettleUnmasksOne(s: State, d: CoordinatedTx, height: BlockHeight, fundingMissing: bool, x: Txid)
    requires Matches(s, d) && x in s.txs && Masked(s, x)
    ensures Masked(SettleFailedDispatch(s, d, height, fundingMissing), x)
            || (d.Supersedes(x) && (s.txs[x].IsBeingReplaced() || Live(s, d.txid)))
  {
    var s' := SettleFailedDispatch(s, d, height, fundingMissing);
    SettleEvolves(s, d, height, fundingMissing);
    SettleMarks(s, d, height, fundingMissing, x);
    EvolvesReadsSame(s, s');
    assert forall p :: d.Supersedes(p) == Supersedes(s, d.txid, p);
    hide SettleFailedDispatch, SameShape, Matches;
    if !s.txs[x].IsBeingReplaced() {
      var z :| z in s.speedups && Live(s, z) && Supersedes(s, z, x);
      SettleStates(s, d, height, fundingMissing, z);
      if z != d.txid {
        assert z in s'.speedups && Live(s', z) && Supersedes(s', z, x);
      }
    }
  }

  lemma SwapSize(a: set<Txid>, b: set<Txid>, d: Txid, p: Txid)
    requires d in a && b <= a - {d} + {p}
    ensures |b| <= |a|
  {
    SubsetSize(b, a - {d} + {p});
    assert |a - {d}| == |a| - 1;
    assert |a - {d} + {p}| <= |a - {d}| + 1;
  }

  lemma FallFacts(s: State, d: CoordinatedTx)
    requires Inv(s) && MayFall(s, d)
    ensures Matches(s, d)
    ensures forall p :: d.Supersedes(p) == Supersedes(s, d.txid, p)
    ensures d.IsRBF() ==> IsSpeedup(s, d.txid)
    ensures Waiting(s, d.txid) ==> d.txid in Occupied(s)
    ensures IsSpeedup(s, d.txid) ==> s.txs[d.txid].state.ToDispatch? || s.txs[d.txid].state.Failed?
  {
    hide KeysOk, LineageOk, RbfOk, OrderOk, InputsOk, ChangeOk, QueueOk, SharingOk, MaskOk, InheritOk, MarkOk, ReservedOk;
    hide LifecycleOk, ParentsOk, OnePrebuilt, SafeToRelease, Masked;
  }

  /** Who holds a slot after `d` failed: old holders other than `d`, and perhaps the predecessor of `d`. */
  lemma SettleHolders(s: State, d: CoordinatedTx, height: BlockHeight, fundingMissing: bool, x: Txid)
    requires Matches(s, d) && Cleared(s, d.txid) && x in Occupied(SettleFailedDispatch(s, d, height, fundingMissing))
    requires IsSpeedup(s, d.txid) ==> s.txs[d.txid].state.ToDispatch? || s.txs[d.txid].state.Failed?
    requires forall p :: d.Supersedes(p) == Supersedes(s, d.txid, p)
    requires d.IsRBF() ==> IsSpeedup(s, d.txid)
    ensures x != d.txid
    ensures x in Occupied(s) || (d.Supersedes(x) && Waiting(s, d.txid))
  {
    var s' := SettleFailedDispatch(s, d, height, fundingMissing);
    SettleEvolves(s, d, height, fundingMissing);
    EvolvesReadsSame(s, s');
    hide SettleFailedDispatch, Matches, SameShape, Masked;
    assert x in s.txs && IsSpeedup(s, x);
    SettleStates(s, d, height, fundingMissing, x);
    if Masked(s, x) {
      SettleUnmasksOne(s, d, height, fundingMissing, x);
    }
  }

  /** A failing speedup gives its slot to the predecessor it unmasks, or to nobody. */
  lemma SettleSlots(s: State, d: CoordinatedTx, height: BlockHeight, fundingMissing: bool)
    requires Inv(s) && MayFall(s, d) && Cleared(s, d.txid)
    ensures |Occupied(SettleFailedDispatch(s, d, height, fundingMissing))| <= |Occupied(s)|
  {
    hide Inv, MayFall, Matches, SettleFailedDispatch, Cleared, Occupied;
    var s' := SettleFailedDispatch(s, d, height, fundingMissing);
    FallFacts(s, d);
    forall x | x in Occupied(s')
      ensures x != d.txid && (x in Occupied(s) || (d.Supersedes(x) && Waiting(s, d.txid)))
    {
      SettleHolders(s, d, height, fundingMissing, x);
    }
    if Waiting(s, d.txid) {
      SwapSize(Occupied(s), Occupied(s'), d.txid, if d.IsRBF() then d.kind.speedup.predecessor else d.txid);
    } else {
      SubsetSize(Occupied(s'), Occupied(s));
    }
  }

  // ---------------------------------------------------------------- cascades

  ghost predicate KeepsCleared(s: State, s': State) {
    forall t :: Cleared(s, t) ==> Cleared(s', t)
  }

  lemma {:induction false} ReplaySlots(s: State, falls: seq<Fall>, height: BlockHeight)
    requires Inv(s)
    requires forall i :: 0 <= i < |falls| ==> MayFall(s, falls[i].tx) && Cleared(s, falls[i].tx.txid)
    ensures |Occupied(Replay(s, falls, height))| <= |Occupied(s)| && KeepsCleared(s, Replay(s, falls, height))
    decreases |falls|
  {
    hide Inv, MayFall, Cleared, Occupied, Declines, Matches;
    if falls != [] {
      var d, missing := falls[0].tx, falls[0].fundingMissing;
      var next := SettleFailedDispatch(s, d, height, missing);
      MayFallParts(s, d);
      SettleFailedDispatchKeepsInv(s, d, height, missing);
      SettleSlots(s, d, height, missing);
      forall t | Cleared(s, t) ensures Cleared(next, t) {
        SettleKeepsCleared(s, d, height, missing, t);
      }
      hide SettleFailedDispatch;
      forall i | 0 <= i < |falls[1..]| ensures MayFall(next, falls[1..][i].tx) && Cleared(next, falls[1..][i].tx.txid) {
        SettleKeepsMayFall(s, next, falls[i + 1].tx);
      }
      ReplaySlots(next, falls[1..], height);
    }
  }

  lemma MayFallParts(s: State, d: CoordinatedTx)
    requires MayFall(s, d)
    ensures Matches(s, d) && SafeToRelease(s, d)
    ensures IsSpeedup(s, d.txid) ==> s.txs[d.txid].state.ToDispatch? || s.txs[d.txid].state.Failed?
  {}

  lemma PendingCleared(s: State, t: Txid)
    requires t in Pending(s)
    ensures Cleared(s, t)
  {}

  lemma CascadeSlots(s: State, tx: CoordinatedTx, height: BlockHeight, fundingMissing: bool)
    requires Inv(s) && MayFall(s, tx) && Cleared(s, tx.txid)
    ensures |Occupied(FailAndCascade(s, tx, height, fundingMissing))| <= |Occupied(s)|
    ensures KeepsCleared(s, FailAndCascade(s, tx, height, fundingMissing))
  {
    hide Inv, KeysOk, Pending, Matches, MayFall, Cleared, Occupied, Trace, Replay, FailAndCascade, KeepsCleared;
    InvKeys(s);
    var falls := Trace(s, tx, height, fundingMissing);
    TraceFalls(s, tx, height, fundingMissing);
    CascadeIsReplay(s, tx, height, fundingMissing);
    forall i | 0 <= i < |falls| ensures MayFall(s, falls[i].tx) && Cleared(s, falls[i].tx.txid) {
      if i > 0 {
        assert FallsFrom(s, falls[i]);
        PendingMayFall(s, falls[i].tx);
        PendingCleared(s, falls[i].tx.txid);
      }
    }
    ReplaySlots(s, falls, height);
  }

  lemma CoreSlots(s: State, s': State)
    requires SameCore(s, s')
    ensures Occupied(s') == Occupied(s) && KeepsCleared(s, s')
  {
    SameCoreFrame(s, s');
    hide Masked, Evolves;
  }

  lemma FailedChildSlots(s: State, tx: CoordinatedTx, height: BlockHeight)
    requires Inv(s) && MayFall(s, tx) && Cleared(s, tx.txid)
    ensures |Occupied(SettleFailedChild(s, tx, height))| <= |Occupied(s)| && KeepsCleared(s, SettleFailedChild(s, tx, height))
  {
    hide Inv, MayFall, Cleared, Occupied, FailAndCascade;
    CascadeSlots(s, tx, height, false);
    if tx.IsFirstCpfp() {
      CoreSlots(FailAndCascade(s, tx, height, false), RebuildSurvivors(s, tx, height));
    }
  }

  // ---------------------------------------------------------------- accepted and retried outcomes

  lemma RetrySlots(s: State, t: Txid)
    requires ListOk(s) && MayFail(s, t)
    ensures Occupied(MarkAsRetry(s, t)) == Occupied(s) && KeepsCleared(s, MarkAsRetry(s, t))
  {
    assert SpeedupsSame(s, MarkAsRetry(s, t));
    SameSpeedupsSameSlots(s, MarkAsRetry(s, t));
    hide Occupied, Masked;
  }

  /** Accepting `d` masks its predecessor and frees or keeps the slot of `d`. */
  lemma AcceptNoNewSlots(s: State, d: CoordinatedTx, r: CoordinatedTx)
    requires WaitingOk(s) && Matches(s, d) && s.txs[d.txid].state.ToDispatch? && d.kind.Speedup? && !d.IsBeingReplaced()
    requires r == d.(state := r.state, broadcastBlockHeight := r.broadcastBlockHeight, feeInfo := r.feeInfo, failGuardUntil := None)
    requires r.state.InMempool? || r.state.Confirmed?
    ensures NoNewSlots(s, Put(MarkReplaced(s, d), d.txid, r))
  {
    var s' := Put(MarkReplaced(s, d), d.txid, r);
    assert Waiting(s, d.txid);
    assert !Masked(s, d.txid);
    hide WaitingOk;
    forall x | x in s'.speedups && IsSpeedup(s', x) && InSlotState(s'.txs[x])
      ensures x in s.speedups && IsSpeedup(s, x) && InSlotState(s.txs[x]) && (Masked(s, x) ==> Masked(s', x))
    {
      if Masked(s, x) && !s.txs[x].IsBeingReplaced() {
        var z :| z in s.speedups && Live(s, z) && Supersedes(s, z, x);
        assert z in s'.speedups && Live(s', z) && Supersedes(s', z, x);
      }
    }
  }

  /** No other Failed speedup replaces what `d` replaces. */
  ghost predicate SolePredecessor(s: State, d: Txid, x: Txid) {
    forall p :: Supersedes(s, d, p) && p in s.txs ==> !Supersedes(s, x, p)
  }

  lemma AcceptKeepsCleared(s: State, d: CoordinatedTx, r: CoordinatedTx, x: Txid)
    requires Matches(s, d) && x != d.txid && SolePredecessor(s, d.txid, x) && Cleared(s, x)
    requires r == d.(state := r.state, broadcastBlockHeight := r.broadcastBlockHeight, feeInfo := r.feeInfo, failGuardUntil := None)
    ensures Cleared(Put(MarkReplaced(s, d), d.txid, r), x) || d.IsBeingReplaced()
  {
    var s' := Put(MarkReplaced(s, d), d.txid, r);
    assert forall p :: d.Supersedes(p) == Supersedes(s, d.txid, p);
    if !d.IsBeingReplaced() && IsSpeedup(s', x) && s'.txs[x].state.Failed? {
      forall p | Supersedes(s', x, p) && p in s'.txs ensures !s'.txs[p].IsBeingReplaced() {
        assert Supersedes(s, x, p) && p in s.txs;
      }
    }
  }

  // ---------------------------------------------------------------- whole batches

  /** What handling the outcome for `t` does to slots, and to the other members of the batch. */
  ghost predicate SlotSafe(s: State, s': State, t: Txid) {
    && |Occupied(s')| <= |Occupied(s)|
    && (forall x :: x != t && Cleared(s, x) && SolePredecessor(s, t, x) ==> Cleared(s', x))
  }

  lemma KeepsClearedSafe(s: State, s': State, t: Txid)
    requires |Occupied(s')| <= |Occupied(s)| && KeepsCleared(s, s')
    ensures SlotSafe(s, s', t)
  {}

  lemma ClassifySlots(s: State, cfg: Config, node: Node, tx: CoordinatedTx, height: BlockHeight, fee: FeeInfo)
    requires Inv(s) && MayFall(s, tx) && MayFail(s, tx.txid) && Cleared(s, tx.txid) && node.confirmations(tx.txid).None?
    ensures SlotSafe(s, ClassifyDispatchError(s, cfg, node, tx, height, fee), tx.txid)
  {
    hide Inv, KeysOk, ListOk, LineageOk, RbfOk, QueueOk, InputsOk, LifecycleOk, ParentsOk, ReservedOk, MayFall, MayFail, Cleared, Occupied, FailAndCascade, SettleFailedChild, MarkAsRetry, MissingInputKind;
    hide KeepsCleared, SlotSafe;
    InvParts(s);
    RetrySlots(s, tx.txid);
    KeepsClearedSafe(s, MarkAsRetry(s, tx.txid), tx.txid);
    CascadeSlots(s, tx, height, true);
    KeepsClearedSafe(s, FailAndCascade(s, tx, height, true), tx.txid);
    CascadeSlots(s, tx, height, false);
    KeepsClearedSafe(s, FailAndCascade(s, tx, height, false), tx.txid);
    FailedChildSlots(s, tx, height);
    KeepsClearedSafe(s, SettleFailedChild(s, tx, height), tx.txid);
  }

  lemma AcceptSlots(s: State, d: CoordinatedTx, r: CoordinatedTx)
    requires WaitingOk(s) && Matches(s, d) && s.txs[d.txid].state.ToDispatch? && d.kind.Speedup? && !d.IsBeingReplaced()
    requires r == d.(state := r.state, broadcastBlockHeight := r.broadcastBlockHeight, feeInfo := r.feeInfo, failGuardUntil := None)
    requires r.state.InMempool? || r.state.Confirmed?
    ensures SlotSafe(s, Put(MarkReplaced(s, d), d.txid, r), d.txid)
  {
    hide WaitingOk, Matches, MarkReplaced, NoNewSlots, Cleared, SolePredecessor, Occupied;
    var s' := Put(MarkReplaced(s, d), d.txid, r);
    AcceptNoNewSlots(s, d, r);
    NoNewSlotsShrink(s, s');
    forall x | x != d.txid && Cleared(s, x) && SolePredecessor(s, d.txid, x) ensures Cleared(s', x) {
      AcceptKeepsCleared(s, d, r, x);
    }
  }

  lemma SnapshotParts(s: State, d: CoordinatedTx)
    requires Inv(s) && Snapshot(s, d)
    ensures WaitingOk(s) && Matches(s, d) && d.kind.Speedup? && !d.IsBeingReplaced()
  {}

  lemma OutcomeSlots(s: State, cfg: Config, node: Node, d: Dispatch, height: BlockHeight, fee: FeeInfo)
    requires Inv(s) && MayFall(s, d.tx) && Snapshot(s, d.tx) && Cleared(s, d.tx.txid)
    requires Accepted(node, d) ==> s.txs[d.tx.txid].state.ToDispatch?
    ensures SlotSafe(s, HandleDispatchResult(s, cfg, node, d, height, fee), d.tx.txid)
  {
    hide Inv, MayFall, Snapshot, Cleared, Occupied, FailAndCascade, SettleFailedChild, MarkReplaced, KeepsCleared, SlotSafe;
    hide WaitingOk, Matches, MayFail;
    var tx := d.tx;
    SnapshotFacts(s, tx);
    SnapshotParts(s, tx);
    if d.outcome.SendError? && node.confirmations(tx.txid).None? {
      hide MissingInputKind, MarkAsRetry;
      ClassifySlots(s, cfg, node, tx, height, fee);
    } else if d.outcome.Success? || d.outcome.SendError? {
      AcceptSlots(s, tx, tx.(state := InMempool, broadcastBlockHeight := Some(height), feeInfo := fee, failGuardUntil := None));
      AcceptSlots(s, tx, MarkAlreadyConfirmed(s, tx, height).txs[tx.txid]);
    } else {
      CascadeSlots(s, tx, height, false);
      KeepsClearedSafe(s, FailAndCascade(s, tx, height, false), tx.txid);
      FailedChildSlots(s, tx, height);
      KeepsClearedSafe(s, SettleFailedChild(s, tx, height), tx.txid);
    }
  }

  /** Batch members replace different stored speedups. */
  ghost predicate DifferentTargets(s: State, ds: seq<Dispatch>) {
    forall i, j :: 0 <= i < |ds| && 0 <= j < |ds| && i != j ==> SolePredecessor(s, ds[i].tx.txid, ds[j].tx.txid)
  }

  lemma SoleStays(s: State, s': State, d: Txid, x: Txid)
    requires Evolves(s, s') && SolePredecessor(s, d, x)
    ensures SolePredecessor(s', d, x)
  {
    EvolvesReadsSame(s, s');
    hide SameShape;
  }

  lemma TargetsStay(s: State, s': State, ds: seq<Dispatch>)
    requires Evolves(s, s') && DifferentTargets(s, ds) && ds != []
    ensures DifferentTargets(s', ds[1..])
  {
    hide Evolves, SolePredecessor;
    forall i, j | 0 <= i < |ds[1..]| && 0 <= j < |ds[1..]| && i != j
      ensures SolePredecessor(s', ds[1..][i].tx.txid, ds[1..][j].tx.txid)
    {
      assert SolePredecessor(s, ds[i + 1].tx.txid, ds[j + 1].tx.txid);
      SoleStays(s, s', ds[i + 1].tx.txid, ds[j + 1].tx.txid);
    }
  }

  lemma {:induction false} HandleSpeedupsSlots(s: State, cfg: Config, node: Node, ds: seq<Dispatch>, height: BlockHeight,
                                               fee: CoordinatedTx -> FeeInfo)
    requires Inv(s) && Distinct(ds) && AcceptsWaiting(s, cfg, node, ds, height, fee) && DifferentTargets(s, ds)
    requires forall i :: 0 <= i < |ds| ==> MayFall(s, ds[i].tx) && Snapshot(s, ds[i].tx) && Cleared(s, ds[i].tx.txid)
    ensures |Occupied(HandleAll(s, cfg, node, ds, height, fee))| <= |Occupied(s)|
    decreases |ds|
  {
    hide Inv, HandleDispatchResult, MayFall, Snapshot, Cleared, Occupied, Evolves, SolePredecessor;
    if ds != [] {
      var next := HandleDispatchResult(s, cfg, node, ds[0], height, fee(ds[0].tx));
      SpeedupOutcomeHandles(s, cfg, node, ds[0], height, fee(ds[0].tx));
      OutcomeSlots(s, cfg, node, ds[0], height, fee(ds[0].tx));
      assert Evolves(s, next);
      TargetsStay(s, next, ds);
      forall i | 0 <= i < |ds[1..]|
        ensures MayFall(next, ds[1..][i].tx) && Snapshot(next, ds[1..][i].tx) && Cleared(next, ds[1..][i].tx.txid)
      {
        assert ds[1..][i] == ds[i + 1];
        assert SolePredecessor(s, ds[0].tx.txid, ds[i + 1].tx.txid);
        BatchAdvances(s, next, ds[0].tx.txid, ds[i + 1].tx);
      }
      HandleSpeedupsSlots(next, cfg, node, ds[1..], height, fee);
    }
  }

  /** Two waiting speedups never replace the same stored speedup. */
  lemma WaitingTargetsDiffer(s: State, x: Txid, y: Txid)
    requires Inv(s) && Waiting(s, x) && Waiting(s, y) && x != y
    ensures SolePredecessor(s, x, y)
  {
    hide OrderOk, ChangeOk, QueueOk, MarkOk, ReservedOk, LifecycleOk, ParentsOk, OnePrebuilt, Masked, ListOk, KeysOk;
    forall p | Supersedes(s, x, p) && p in s.txs ensures !Supersedes(s, y, p) {
      SupersededKnown(s, x, p);
      assert IsSpeedup(s, p);
      assert InheritsInputs(s, x) && InheritsInputs(s, y) && InputsOf(s, p);
      var op := s.txs[p].FundingInputs()[0].op;
      assert s.txs[x].FundingInputs()[0].op == op;
      assert Uses(s, x, op);
      assert !Masked(s, x) && !Masked(s, y);
      assert Supersedes(s, y, p) ==> s.txs[y].FundingInputs()[0].op == op;
      assert Uses(s, y, op) ==> Ancestor(s, x, y) || Ancestor(s, y, x);
    }
  }

  lemma BatchWaits(s: State, retryReady: bool, d: CoordinatedTx)
    requires Inv(s) && d in SpeedupBatch(s, retryReady)
    ensures Waiting(s, d.txid) && Cleared(s, d.txid)
  {
    hide Inv, Occupied;
    InvParts(s);
    assert d in SpeedupRecords(s) && d.state.ToDispatch?;
  }

  lemma DispatchSpeedupsSlots(s: State, cfg: Config, node: Node, retryReady: bool, height: BlockHeight)
    requires Inv(s) && ConsistentNode(s, cfg, node, retryReady, height)
    ensures |Occupied(DispatchPendingSpeedups(s, cfg, node, retryReady, height))| <= |Occupied(s)|
  {
    hide Inv, KeysOk, ListOk, LineageOk, RbfOk, QueueOk, InputsOk, LifecycleOk, ParentsOk, ReservedOk;
    hide SpeedupBatch, DispatchAll, MayFall, Snapshot, AcceptsWaiting, Cleared, Occupied, Waiting, SolePredecessor, Tracks;
    hide ConsistentNode;
    InvParts(s);
    SpeedupBatchTracks(s, cfg, node, retryReady, height);
    var batch := SpeedupBatch(s, retryReady);
    BatchDistinct(s, retryReady);
    DispatchAllFacts(s, cfg, node, batch);
    var ds := DispatchAll(s, cfg, node, batch);
    forall i | 0 <= i < |ds| ensures MayFall(s, ds[i].tx) && Snapshot(s, ds[i].tx) && Cleared(s, ds[i].tx.txid) {
      BatchMember(s, retryReady, ds[i].tx);
      BatchWaits(s, retryReady, ds[i].tx);
    }
    forall i, j | 0 <= i < |ds| && 0 <= j < |ds| && i != j ensures SolePredecessor(s, ds[i].tx.txid, ds[j].tx.txid) {
      BatchWaits(s, retryReady, ds[i].tx);
      BatchWaits(s, retryReady, ds[j].tx);
      assert ds[i].tx.txid != ds[j].tx.txid;
      WaitingTargetsDiffer(s, ds[i].tx.txid, ds[j].tx.txid);
    }
    HandleSpeedupsSlots(s, cfg, node, ds, height, KeepFee);
  }

  /** A client outcome fails speedups by cascade only. */
  lemma ClientOutcomeSlots(s: State, cfg: Config, node: Node, d: Dispatch, height: BlockHeight, fee: FeeInfo)
    requires Inv(s) && ClientSnapshot(s, d.tx)
    ensures |Occupied(HandleDispatchResult(s, cfg, node, d, height, fee))| <= |Occupied(s)|
  {
    var tx := d.tx;
    ClientMayFall(s, tx);
    InvParts(s);
    assert Cleared(s, tx.txid) && MayFail(s, tx.txid);
    assert tx.txid !in s.speedups;
    hide Inv, KeysOk, LineageOk, RbfOk, QueueOk, InputsOk, LifecycleOk, ParentsOk, ReservedOk, MayFall, Cleared, MayFail;
    hide FailAndCascade, SettleFailedChild, Occupied;
    if d.outcome.SendError? && node.confirmations(tx.txid).None? {
      ClassifySlots(s, cfg, node, tx, height, fee);
    } else if d.outcome.Success? || d.outcome.SendError? {
      SameSpeedupsSameSlots(s, HandleDispatchResult(s, cfg, node, d, height, fee));
    } else {
      CascadeSlots(s, tx, height, false);
      FailedChildSlots(s, tx, height);
    }
  }

  lemma {:induction false} HandleClientsSlots(s: State, cfg: Config, node: Node, ds: seq<Dispatch>, height: BlockHeight,
                                              fee: CoordinatedTx -> FeeInfo)
    requires Inv(s) && Distinct(ds)
    requires forall i :: 0 <= i < |ds| ==> ClientSnapshot(s, ds[i].tx)
    ensures |Occupied(HandleAll(s, cfg, node, ds, height, fee))| <= |Occupied(s)|
    decreases |ds|
  {
    hide Inv, HandleDispatchResult, Handles, ClientSnapshot, Occupied;
    if ds != [] {
      var next := HandleDispatchResult(s, cfg, node, ds[0], height, fee(ds[0].tx));
      ClientOutcomeHandles(s, cfg, node, ds[0], height, fee(ds[0].tx));
      ClientOutcomeSlots(s, cfg, node, ds[0], height, fee(ds[0].tx));
      forall i | 0 <= i < |ds[1..]| ensures ClientSnapshot(next, ds[1..][i].tx) {
        assert ds[1..][i] == ds[i + 1];
        ClientSnapshotStays(s, next, ds[0].tx.txid, ds[i + 1].tx);
      }
      HandleClientsSlots(next, cfg, node, ds[1..], height, fee);
    }
  }

  lemma NotedSlots(s: State, news: Option<News>)
    ensures Occupied(NoteRate(s, news)) == Occupied(s)
  {
    CoreSlots(s, NoteRate(s, news));
  }

  lemma DispatchClientsSlots(s: State, cfg: Config, node: Node, order: seq<Txid>, retryReady: bool, estimate: Option<nat>,
                             height: BlockHeight)
    requires Inv(s) && NoDup(order)
    ensures |Occupied(DispatchPending(s, cfg, node, order, retryReady, estimate, height))| <= |Occupied(s)|
  {
    hide Inv, KeysOk, Occupied;
    InvKeys(s);
    var ready := ReadyToDispatch(s, order, height);
    ReadyDistinct(s, order, height);
    hide ReadyToDispatch, Fees.NetworkFeeRate, Fees.ComputeFeeForTx, DispatchAll, RetryFilter;
    if ready != [] {
      var (rate, news) := Fees.NetworkFeeRate(cfg, estimate);
      var noted := NoteRate(s, news);
      NoteRateKeepsInv(s, news);
      NotedSlots(s, news);
      var batch := RetryFilter(ready, retryReady);
      RetryFilterDistinct(ready, retryReady);
      DispatchAllFacts(noted, cfg, node, batch);
      var ds := DispatchAll(noted, cfg, node, batch);
      forall i | 0 <= i < |ds| ensures ClientSnapshot(noted, ds[i].tx) {
        assert ds[i].tx in batch && ds[i].tx in ready;
      }
      hide NoteRate, ClientSnapshot;
      HandleClientsSlots(noted, cfg, node, ds, height, (tx: CoordinatedTx) => Fees.ComputeFeeForTx(tx.tx, rate));
    }
  }

  // ---------------------------------------------------------------- reviews

  /** A finalized replacement that is removed left its mark behind. */
  lemma RemoveSlots(s: State, gone: set<Txid>)
    requires MarkOk(s) && forall t :: t in gone && IsSpeedup(s, t) ==> s.txs[t].state.Terminal()
    ensures Occupied(RemoveTxs(s, gone)) <= Occupied(s)
  {
    var s' := RemoveTxs(s, gone);
    hide MarkOk;
    forall x | x in s'.speedups && IsSpeedup(s', x) && InSlotState(s'.txs[x])
      ensures x in s.speedups && IsSpeedup(s, x) && InSlotState(s.txs[x]) && (Masked(s, x) ==> Masked(s', x))
    {
      if Masked(s, x) && !s.txs[x].IsBeingReplaced() {
        var z :| z in s.speedups && Live(s, z) && Supersedes(s, z, x);
        UnmarkedWaits(s, z, x);
        assert z in s'.speedups && Live(s', z) && Supersedes(s', z, x);
      }
    }
    NoNewSlotsShrink(s, s');
  }

  lemma EvictSlots(s: State, height: BlockHeight, maxTracking: nat)
    requires MarkOk(s)
    ensures Occupied(EvictStaleTxs(s, height, maxTracking)) <= Occupied(s)
  {
    var gone := StaleTxs(s, height, maxTracking);
    hide MarkOk, LiveCovered, Occupied, RemoveTxs;
    assert forall t :: t in gone ==> s.txs[t].state.Terminal();
    RemoveSlots(s, gone);
    CoreSlots(RemoveTxs(s, gone), EvictStaleTxs(s, height, maxTracking));
  }

  lemma UnmarkedWaits(s: State, z: Txid, x: Txid)
    requires MarkOk(s) && Live(s, z) && Live(s, x) && Supersedes(s, z, x) && !s.txs[x].IsBeingReplaced()
    ensures Waiting(s, z)
  {}

  lemma ReviewTransactionList(s: State, cfg: Config, status: Txid -> ChainStatus, tx: CoordinatedTx, height: BlockHeight)
    ensures ReviewTransaction(s, cfg, status, tx, height).speedups == s.speedups
  {}

  lemma ReviewTransactionSpeedups(s: State, cfg: Config, status: Txid -> ChainStatus, tx: CoordinatedTx, height: BlockHeight)
    requires ListOk(s) && tx.txid !in s.speedups
    ensures SpeedupsSame(s, ReviewTransaction(s, cfg, status, tx, height))
  {
    hide ReviewTransaction;
    ReviewTransactionList(s, cfg, status, tx, height);
    ReviewTransactionFrame(s, cfg, status, tx, height);
  }

  lemma {:induction false} ReviewTransactionsSlots(s: State, cfg: Config, status: Txid -> ChainStatus,
                                                   txs: seq<CoordinatedTx>, height: BlockHeight)
    requires Inv(s) && Current(s, txs)
    requires forall i :: 0 <= i < |txs| ==> InFlight(txs[i]) && !txs[i].kind.Speedup?
    ensures Occupied(ReviewTransactions(s, cfg, status, txs, height)) == Occupied(s)
    decreases |txs|
  {
    hide Inv, ReviewTransaction, SpeedupsSame, Occupied, InFlight;
    if txs != [] {
      var next := ReviewTransaction(s, cfg, status, txs[0], height);
      assert s.txs[txs[0].txid] == txs[0];
      ReviewTransactionKeepsInv(s, cfg, status, txs[0], height);
      assert ListOk(s) && txs[0].txid !in s.speedups by { InvParts(s); }
      ReviewTransactionSpeedups(s, cfg, status, txs[0], height);
      SameSpeedupsSameSlots(s, next);
      ReviewTransactionsSlots(next, cfg, status, txs[1..], height);
    }
  }

  lemma InvMarks(s: State)
    requires Inv(s)
    ensures MarkOk(s) && MaskOk(s) && WaitingOk(s)
  {}

  lemma ReviewClientsSlots(s: State, cfg: Config, status: Txid -> ChainStatus, order: seq<Txid>, height: BlockHeight)
    requires Inv(s) && NoDup(order)
    ensures |Occupied(ReviewActive(s, cfg, status, order, height))| <= |Occupied(s)|
  {
    var kept := EvictStaleTxs(s, height, cfg.maxTrackingConfirmations);
    EvictKeepsInv(s, height, cfg.maxTrackingConfirmations);
    InvMarks(s);
    EvictSlots(s, height, cfg.maxTrackingConfirmations);
    hide Inv, MarkOk, EvictStaleTxs, KeysOk, Occupied;
    InvKeys(kept);
    ToReviewCurrent(kept, order);
    hide ToReview;
    ReviewTransactionsSlots(kept, cfg, status, ToReview(kept, order), height);
    SubsetSize(Occupied(kept), Occupied(s));
  }

  /** The walk fails ancestors of a live speedup; none of them was the only thing masking an older one. */
  lemma WalkMasks(s: State, tx: CoordinatedTx, height: BlockHeight, x: Txid)
    requires Inv(s) && Matches(s, tx) && tx.kind.Speedup? && Live(s, tx.txid)
    requires x in RemoveReplacedRbf(s, tx, height).txs && IsSpeedup(s, x) && Masked(s, x)
    requires !RemoveReplacedRbf(s, tx, height).txs[x].state.Failed?
    ensures Masked(RemoveReplacedRbf(s, tx, height), x)
    ensures RemoveReplacedRbf(s, tx, height).txs[x].IsBeingReplaced()
            || exists z :: z in s.speedups && Waiting(s, z) && Live(RemoveReplacedRbf(s, tx, height), z)
                           && Supersedes(RemoveReplacedRbf(s, tx, height), z, x)
  {
    if tx.IsRBF() {
      var p := tx.kind.speedup.predecessor;
      var s' := RemoveReplacedRbf(s, tx, height);
      assert IsSpeedup(s, tx.txid) && Supersedes(s, tx.txid, p);
      WalkSettles(s, p, height, x);
      WalkKeepsInv(s, p, height);
      assert s'.speedups == s.speedups;
      if !s.txs[x].IsBeingReplaced() {
        var z :| z in s.speedups && Live(s, z) && Supersedes(s, z, x);
        assert Waiting(s, z) by { UnmarkedWaits(s, z, x); }
        WaitingOutsideWalk(s, tx.txid, p, z);
        WalkSettles(s, p, height, z);
        assert Live(s', z) && Supersedes(s', z, x);
      }
    } else {
      assert RemoveReplacedRbf(s, tx, height) == s;
      if !s.txs[x].IsBeingReplaced() {
        var z :| z in s.speedups && Live(s, z) && Supersedes(s, z, x);
        UnmarkedWaits(s, z, x);
      }
    }
  }

  lemma WaitingOutsideWalk(s: State, t: Txid, p: Txid, z: Txid)
    requires LineageOk(s) && RbfOk(s) && MaskOk(s) && WaitingOk(s)
    requires Live(s, t) && Supersedes(s, t, p) && Waiting(s, z)
    ensures z !in Visited(s, p)
  {
    SupersededIsAncestor(s, t, p);
    AncestorRank(s, p, t);
    assert !Masked(s, z);
    assert !Ancestor(s, z, t);
    if z in Visited(s, p) {
      VisitedAreAncestors(s, p, z);
    }
  }
}

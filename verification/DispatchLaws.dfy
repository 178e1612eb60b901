/** The dispatch steps keep the invariant: steps 3 and 4 of a tick. */
module DispatchLaws {
  import opened Types
  import opened Oracles
  import Fees
  import opened States
  import opened Funding
  import opened Failures
  import opened Dispatching
  import opened Engines
  import opened Invariants
  import opened Evolution
  import opened FailureLaws
  import opened CascadeLaws

  // ---------------------------------------------------------------- what a cascade leaves alone

  /** Spent marks are only cleared, and client records other than `t` do not change. */
  ghost predicate Fades(s: State, s': State, t: Txid) {
    && (forall x :: x in s.txs ==> x in s'.txs)
    && (forall x :: x in s.txs && s'.txs[x].IsSpent() ==> s.txs[x].IsSpent())
    && (forall x :: x in s.txs && !s.txs[x].kind.Speedup? && x != t ==> s'.txs[x] == s.txs[x])
    && (forall x :: x in s.txs ==> s'.txs[x].kind.Speedup? == s.txs[x].kind.Speedup?)
  }

  lemma {:induction false} ReleaseFades(s: State, us: seq<Utxo>, t: Txid)
    ensures Fades(s, ReleaseMarks(s, us), t)
    decreases |us|
  {
    if us != [] {
      var next := SetSpent(s, us[0].op, false);
      assert Fades(s, next, t);
      hide SetSpent;
      ReleaseFades(next, us[1..], t);
    }
  }

  lemma FadesTransitive(a: State, b: State, c: State, t: Txid)
    requires Fades(a, b, t) && Fades(b, c, t)
    ensures Fades(a, c, t)
  {}

  lemma SettleTxFades(s: State, t: Txid, height: BlockHeight, n: News)
    ensures Fades(s, AddNews(SettleTx(s, t, Failed, height), n), t)
  {}

  lemma UnmaskFades(s: State, p: Txid, t: Txid)
    ensures Fades(s, SetReplacedBy(s, p, None), t)
  {}

  lemma CoreFades(s: State, s': State, t: Txid)
    requires SameCore(s, s')
    ensures Fades(s, s', t)
  {}

  lemma SettleFades(s: State, d: CoordinatedTx, height: BlockHeight, fundingMissing: bool)
    ensures Fades(s, SettleFailedDispatch(s, d, height, fundingMissing), d.txid)
  {
    hide Fades;
    var settled := AddNews(SettleTx(s, d.txid, Failed, height), DispatchErrorNews(d));
    var marked := ReleaseMarks(settled, d.Claimed());
    var released := ReleaseClaims(settled, d);
    SettleTxFades(s, d.txid, height, DispatchErrorNews(d));
    ReleaseFades(settled, d.Claimed(), d.txid);
    if d.IsRBF() {
      UnmaskFades(marked, d.kind.speedup.predecessor, d.txid);
      FadesTransitive(settled, marked, released, d.txid);
    }
    FadesTransitive(s, settled, released, d.txid);
    CoreFades(released, RequeueProtocolParents(released, d), d.txid);
    FadesTransitive(s, released, RequeueProtocolParents(released, d), d.txid);
  }

  lemma {:induction false} ReplayFades(s: State, falls: seq<Fall>, height: BlockHeight, t: Txid)
    requires forall i :: 0 <= i < |falls| ==> falls[i].tx.txid in s.txs
    requires forall i :: 0 <= i < |falls| ==> falls[i].tx.txid == t || s.txs[falls[i].tx.txid].kind.Speedup?
    ensures Fades(s, Replay(s, falls, height), t)
    decreases |falls|
  {
    if falls != [] {
      var next := SettleFailedDispatch(s, falls[0].tx, height, falls[0].fundingMissing);
      SettleFades(s, falls[0].tx, height, falls[0].fundingMissing);
      hide SettleFailedDispatch;
      assert Fades(s, next, t) by {
        assert falls[0].tx.txid == t || s.txs[falls[0].tx.txid].kind.Speedup?;
      }
      forall i | 0 <= i < |falls[1..]|
        ensures falls[1..][i].tx.txid in next.txs
        ensures falls[1..][i].tx.txid == t || next.txs[falls[1..][i].tx.txid].kind.Speedup?
      {
        assert falls[1..][i] == falls[i + 1];
      }
      ReplayFades(next, falls[1..], height, t);
      hide Fades;
      FadesTransitive(s, next, Replay(s, falls, height), t);
    }
  }

  lemma CascadeFades(s: State, tx: CoordinatedTx, height: BlockHeight, fundingMissing: bool)
    requires KeysOk(s) && tx.txid in s.txs
    ensures Fades(s, FailAndCascade(s, tx, height, fundingMissing), tx.txid)
  {
    var falls := Trace(s, tx, height, fundingMissing);
    CascadeIsReplay(s, tx, height, fundingMissing);
    TraceFalls(s, tx, height, fundingMissing);
    hide Trace, FailAndCascade;
    forall i | 0 <= i < |falls|
      ensures falls[i].tx.txid in s.txs && (falls[i].tx.txid == tx.txid || s.txs[falls[i].tx.txid].kind.Speedup?)
    {
      assert i > 0 ==> FallsFrom(s, falls[i]);
    }
    ReplayFades(s, falls, height, tx.txid);
  }

  // ---------------------------------------------------------------- outcomes of a failed dispatch

  lemma {:induction false} DedupNoDup<T(!new)>(xs: seq<T>)
    ensures NoDup(Dedup(xs))
  {
    if xs != [] {
      DedupNoDup(xs[..|xs| - 1]);
      var front := Dedup(xs[..|xs| - 1]);
      if xs[|xs| - 1] !in front {
        NoDupConcat(front, [xs[|xs| - 1]]);
      }
    }
  }

  /** The effect of handling an outcome for `t`, as the rest of the batch sees it. */
  ghost predicate Handles(s: State, s': State, t: Txid) {
    && Evolves(s, s')
    && (forall x :: Live(s', x) ==> Live(s, x))
    && (forall x :: x in s.txs && x != t ==> s'.txs[x].state == s.txs[x].state || (IsSpeedup(s, x) && s'.txs[x].state.Failed?))
    && (forall x :: x in s.txs && x != t && s'.txs[x].IsSpent() ==> s.txs[x].IsSpent())
    && (forall x :: x in s.txs && !s.txs[x].kind.Speedup? && x != t ==> s'.txs[x] == s.txs[x])
  }

  lemma CascadeHandles(s: State, tx: CoordinatedTx, height: BlockHeight, fundingMissing: bool)
    requires Inv(s) && MayFall(s, tx)
    ensures Inv(FailAndCascade(s, tx, height, fundingMissing))
    ensures Handles(s, FailAndCascade(s, tx, height, fundingMissing), tx.txid)
  {
    assert KeysOk(s);
    FailAndCascadeKeepsInv(s, tx, height, fundingMissing);
    CascadeFades(s, tx, height, fundingMissing);
    hide Inv, KeysOk, FailAndCascade, Evolves;
  }

  lemma PrependHandles(s: State, s': State, ts: seq<Txid>, t: Txid)
    requires Handles(s, s', t)
    ensures Handles(s, PrependPending(s', ts), t)
  {
    SameCoreFrame(s', PrependPending(s', ts));
    EvolvesTransitive(s, s', PrependPending(s', ts));
    hide Evolves;
  }

  lemma RebuildHandles(s: State, tx: CoordinatedTx, height: BlockHeight)
    requires Inv(s) && MayFall(s, tx)
    ensures Inv(RebuildSurvivors(s, tx, height)) && Handles(s, RebuildSurvivors(s, tx, height), tx.txid)
  {
    hide Inv, Handles, MayFall, FailAndCascade, NoDup;
    var failed := FailAndCascade(s, tx, height, false);
    CascadeHandles(s, tx, height, false);
    var survivors := Dedup(Survivors(s, tx.NonFundingInputs()));
    DedupNoDup(Survivors(s, tx.NonFundingInputs()));
    StillNeedNoDup(failed, survivors);
    PrependKeepsInv(failed, StillNeedSpeedup(failed, survivors));
    PrependHandles(s, failed, StillNeedSpeedup(failed, survivors), tx.txid);
  }

  lemma FailedChildHandles(s: State, tx: CoordinatedTx, height: BlockHeight)
    requires Inv(s) && MayFall(s, tx)
    ensures Inv(SettleFailedChild(s, tx, height)) && Handles(s, SettleFailedChild(s, tx, height), tx.txid)
  {
    hide Inv, Handles, MayFall, FailAndCascade, RebuildSurvivors;
    if tx.IsFirstCpfp() {
      RebuildHandles(s, tx, height);
    } else {
      CascadeHandles(s, tx, height, false);
    }
  }

  lemma PutHandles(s: State, t: Txid, r: CoordinatedTx)
    requires Inv(s) && WriteOk(s, t, r)
    ensures Inv(Put(s, t, r)) && Handles(s, Put(s, t, r), t)
  {
    WriteKeepsInv(s, t, r);
    WriteEvolves(s, t, r);
    hide Inv, Evolves, WriteOk;
  }

  lemma RetryHandles(s: State, t: Txid)
    requires Inv(s) && t in s.txs && (s.txs[t].state.ToDispatch? || s.txs[t].state.Failed?)
    ensures Inv(MarkAsRetry(s, t)) && Handles(s, MarkAsRetry(s, t), t)
  {
    hide Inv, WriteOk, Handles;
    if s.txs[t].state.ToDispatch? {
      RetryWriteOk(s, t);
      PutHandles(s, t, s.txs[t].(state := ToDispatch, retryCount := s.txs[t].retryCount + 1));
    } else {
      NewsHandles(s, InvalidStateTransition(t, Failed, ToDispatch), t);
    }
  }

  lemma NewsHandles(s: State, n: News, t: Txid)
    requires Inv(s)
    ensures Inv(AddNews(s, n)) && Handles(s, AddNews(s, n), t)
  {
    hide Inv;
    NewsKeepsInv(s, n);
    SameCoreFrame(s, AddNews(s, n));
    hide Evolves;
  }

  lemma RetryWriteOk(s: State, t: Txid)
    requires Inv(s) && t in s.txs && s.txs[t].state.ToDispatch?
    ensures WriteOk(s, t, s.txs[t].(state := ToDispatch, retryCount := s.txs[t].retryCount + 1))
  {
    hide Structure, ParentsOk, OnePrebuilt, SharingOk, MaskOk, InheritOk, MarkOk, ReservedOk, Masked;
    assert LifeOf(s.txs[t]);
    assert IsSpeedup(s, t) ==> Waiting(s, t);
  }

  // ---------------------------------------------------------------- outcomes of an accepted dispatch

  /** `d` is a batch snapshot of a speedup that was waiting when the batch was taken. */
  ghost predicate Snapshot(s: State, d: CoordinatedTx) {
    && d.kind.Speedup?
    && d.state.ToDispatch?
    && LifeOf(d)
    && !d.IsBeingReplaced()
    && d.txid in s.speedups
    && Matches(s, d)
    && (s.txs[d.txid].IsSpent() ==> d.IsSpent())
  }

  /** The mark on the predecessor is already implied: a live RBF masks it. */
  lemma MarkReplacedHandles(s: State, d: CoordinatedTx)
    requires Inv(s) && Snapshot(s, d) && s.txs[d.txid].state.ToDispatch?
    ensures Inv(MarkReplaced(s, d)) && OnlyMarksDiffer(s, MarkReplaced(s, d))
    ensures MarkReplaced(s, d).txs[d.txid] == s.txs[d.txid]
    ensures forall x :: x in s.txs ==> MarkReplaced(s, d).txs[x].IsSpent() == s.txs[x].IsSpent()
    ensures forall x :: x in s.txs && !s.txs[x].kind.Speedup? ==> MarkReplaced(s, d).txs[x] == s.txs[x]
    ensures forall p :: d.Supersedes(p) && IsSpeedup(s, p) ==> MarkReplaced(s, d).txs[p].IsBeingReplaced()
  {
    if d.IsRBF() {
      var p := d.kind.speedup.predecessor;
      assert Supersedes(s, d.txid, p);
      assert Live(s, d.txid);
      assert !Waiting(s, p) by {
        assert p in s.txs ==> Masked(s, p);
      }
      assert p != d.txid by {
        assert Waiting(s, d.txid);
      }
      hide Inv, OnlyMarksDiffer, Masked, Matches;
      SetReplacedByKeepsInv(s, p, Some(d.txid));
      SetReplacedByFrame(s, p, Some(d.txid));
    } else {
      MarksDiffReflexive(s);
    }
  }

  lemma AcceptWriteOk(s: State, d: CoordinatedTx, r: CoordinatedTx)
    requires Inv(s) && Snapshot(s, d) && s.txs[d.txid].state.ToDispatch?
    requires forall p :: d.Supersedes(p) && IsSpeedup(s, p) ==> s.txs[p].IsBeingReplaced()
    requires r == d.(state := r.state, broadcastBlockHeight := r.broadcastBlockHeight, feeInfo := r.feeInfo, failGuardUntil := None)
    requires (r.state.InMempool? || r.state.Confirmed?) && r.broadcastBlockHeight.Some?
    ensures WriteOk(s, d.txid, r)
  {
    hide Structure, ParentsOk, OnePrebuilt, SharingOk, MaskOk, InheritOk, MarkOk, ReservedOk;
    assert Waiting(s, d.txid);
    assert !s.txs[d.txid].IsBeingReplaced();
    forall p | Supersedes(s, d.txid, p) && Live(s, p) ensures s.txs[p].IsBeingReplaced() {
      SameShapeSupersedes(s.txs[d.txid], d, p);
    }
    hide Masked;
  }

  lemma MarksHandle(s: State, s': State, t: Txid)
    requires OnlyMarksDiffer(s, s')
    requires forall x :: x in s.txs ==> s'.txs[x].IsSpent() == s.txs[x].IsSpent()
    requires forall x :: x in s.txs && !s.txs[x].kind.Speedup? ==> s'.txs[x] == s.txs[x]
    ensures Handles(s, s', t)
  {
    EvolvesReadsSame(s, s');
    hide Evolves;
  }

  lemma HandlesTransitive(a: State, b: State, c: State, t: Txid)
    requires Handles(a, b, t) && Handles(b, c, t)
    ensures Handles(a, c, t)
  {
    EvolvesReadsSame(a, b);
    EvolvesTransitive(a, b, c);
    hide Evolves;
  }

  lemma SnapshotMarked(s: State, s': State, d: CoordinatedTx)
    requires OnlyMarksDiffer(s, s') && Snapshot(s, d) && s'.txs[d.txid] == s.txs[d.txid]
    ensures Snapshot(s', d)
  {
    hide SameShape;
  }

  /** An acceptance written over a record that is still waiting keeps the invariant. */
  lemma AcceptHandles(s: State, d: CoordinatedTx, r: CoordinatedTx)
    requires Inv(s) && Snapshot(s, d) && s.txs[d.txid].state.ToDispatch?
    requires r == d.(state := r.state, broadcastBlockHeight := r.broadcastBlockHeight, feeInfo := r.feeInfo, failGuardUntil := None)
    requires (r.state.InMempool? || r.state.Confirmed?) && r.broadcastBlockHeight.Some?
    ensures Inv(Put(MarkReplaced(s, d), d.txid, r)) && Handles(s, Put(MarkReplaced(s, d), d.txid, r), d.txid)
  {
    var marked := MarkReplaced(s, d);
    MarkReplacedHandles(s, d);
    SnapshotMarked(s, marked, d);
    assert forall p :: IsSpeedup(marked, p) == IsSpeedup(s, p) by {
      EvolvesReadsSame(s, marked);
    }
    hide Inv, MarkReplaced, Handles, OnlyMarksDiffer, WriteOk, Snapshot;
    MarksHandle(s, marked, d.txid);
    AcceptWriteOk(marked, d, r);
    PutHandles(marked, d.txid, r);
    HandlesTransitive(s, marked, Put(marked, d.txid, r), d.txid);
  }

  // ---------------------------------------------------------------- one outcome

  lemma ClassifyHandles(s: State, cfg: Config, node: Node, tx: CoordinatedTx, height: BlockHeight, fee: FeeInfo)
    requires Inv(s) && MayFall(s, tx) && node.confirmations(tx.txid).None?
    requires s.txs[tx.txid].state.ToDispatch? || s.txs[tx.txid].state.Failed?
    ensures Inv(ClassifyDispatchError(s, cfg, node, tx, height, fee))
    ensures Handles(s, ClassifyDispatchError(s, cfg, node, tx, height, fee), tx.txid)
  {
    hide Inv, Handles, SafeToRelease, SameShape, FailAndCascade, SettleFailedChild, MarkAsRetry, MissingInputKind;
    RetryHandles(s, tx.txid);
    CascadeHandles(s, tx, height, true);
    CascadeHandles(s, tx, height, false);
    FailedChildHandles(s, tx, height);
  }

  lemma SnapshotIsSpeedup(s: State, d: CoordinatedTx)
    requires Snapshot(s, d)
    ensures IsSpeedup(s, d.txid)
  {}

  lemma SpeedupOutcomeHandles(s: State, cfg: Config, node: Node, d: Dispatch, height: BlockHeight, fee: FeeInfo)
    requires Inv(s) && MayFall(s, d.tx) && Snapshot(s, d.tx)
    requires Accepted(node, d) ==> s.txs[d.tx.txid].state.ToDispatch?
    ensures Inv(HandleDispatchResult(s, cfg, node, d, height, fee))
    ensures Handles(s, HandleDispatchResult(s, cfg, node, d, height, fee), d.tx.txid)
  {
    var tx := d.tx;
    hide Inv, Handles, SafeToRelease, SameShape;
    assert s.txs[tx.txid].state.ToDispatch? || s.txs[tx.txid].state.Failed? by {
      SnapshotIsSpeedup(s, tx);
    }
    hide MayFall, Snapshot, FailAndCascade, SettleFailedChild, MarkReplaced;
    if d.outcome.SendError? && node.confirmations(tx.txid).None? {
      hide MissingInputKind, MarkAsRetry;
      ClassifyHandles(s, cfg, node, tx, height, fee);
    } else if d.outcome.Success? || d.outcome.SendError? {
      AcceptHandles(s, tx, tx.(state := InMempool, broadcastBlockHeight := Some(height), feeInfo := fee, failGuardUntil := None));
      AcceptHandles(s, tx, MarkAlreadyConfirmed(s, tx, height).txs[tx.txid]);
    } else {
      CascadeHandles(s, tx, height, false);
      FailedChildHandles(s, tx, height);
    }
  }

  /** A client record in a batch is the stored one: nothing else in the step writes it. */
  ghost predicate ClientSnapshot(s: State, d: CoordinatedTx) {
    d.txid in s.txs && s.txs[d.txid] == d && !d.kind.Speedup? && d.state.ToDispatch?
  }

  lemma ClientMayFall(s: State, d: CoordinatedTx)
    requires ClientSnapshot(s, d)
    ensures MayFall(s, d)
  {
    SameShapeReflexive(d);
    assert d.Claimed() == [];
  }

  lemma ClientAcceptHandles(s: State, d: CoordinatedTx, r: CoordinatedTx)
    requires Inv(s) && ClientSnapshot(s, d)
    requires r == d.(state := r.state, broadcastBlockHeight := r.broadcastBlockHeight, feeInfo := r.feeInfo, failGuardUntil := None)
    requires (r.state.InMempool? || r.state.Confirmed?) && r.broadcastBlockHeight.Some?
    ensures Inv(Put(s, d.txid, r)) && Handles(s, Put(s, d.txid, r), d.txid)
  {
    assert WriteOk(s, d.txid, r) by {
      hide Structure, ParentsOk, OnePrebuilt, Reservations, Masked;
      assert LifeOf(s.txs[d.txid]);
    }
    hide Inv, WriteOk, Handles;
    PutHandles(s, d.txid, r);
  }

  lemma ClientOutcomeHandles(s: State, cfg: Config, node: Node, d: Dispatch, height: BlockHeight, fee: FeeInfo)
    requires Inv(s) && ClientSnapshot(s, d.tx)
    ensures Inv(HandleDispatchResult(s, cfg, node, d, height, fee))
    ensures Handles(s, HandleDispatchResult(s, cfg, node, d, height, fee), d.tx.txid)
  {
    hide Inv, Handles, MayFall, FailAndCascade, SettleFailedChild;
    var tx := d.tx;
    assert !tx.IsRBF();
    ClientMayFall(s, tx);
    if d.outcome.SendError? && node.confirmations(tx.txid).None? {
      hide MissingInputKind, MarkAsRetry;
      ClassifyHandles(s, cfg, node, tx, height, fee);
    } else if d.outcome.Success? || d.outcome.SendError? {
      ClientAcceptHandles(s, tx, tx.(state := InMempool, broadcastBlockHeight := Some(height), feeInfo := fee, failGuardUntil := None));
      ClientAcceptHandles(s, tx, MarkAlreadyConfirmed(s, tx, height).txs[tx.txid]);
    } else {
      CascadeHandles(s, tx, height, false);
      FailedChildHandles(s, tx, height);
    }
  }

  // ---------------------------------------------------------------- whole batches

  /** Whenever the node turns out to have a transaction of the batch, its record is still waiting. */
  ghost predicate AcceptsWaiting(s: State, cfg: Config, node: Node, ds: seq<Dispatch>, height: BlockHeight,
                                 fee: CoordinatedTx -> FeeInfo)
    decreases |ds|
  {
    ds != [] ==>
      && (Accepted(node, ds[0]) ==> ds[0].tx.txid in s.txs && s.txs[ds[0].tx.txid].state.ToDispatch?)
      && AcceptsWaiting(HandleDispatchResult(s, cfg, node, ds[0], height, fee(ds[0].tx)), cfg, node, ds[1..], height, fee)
  }

  ghost predicate Distinct(ds: seq<Dispatch>) {
    forall i, j :: 0 <= i < j < |ds| ==> ds[i].tx.txid != ds[j].tx.txid
  }

  lemma BatchAdvances(s: State, s': State, t: Txid, d: CoordinatedTx)
    requires Handles(s, s', t) && MayFall(s, d) && Snapshot(s, d) && d.txid != t
    ensures MayFall(s', d) && Snapshot(s', d)
  {
    EvolvesReadsSame(s, s');
    assert SameShape(s.txs[d.txid], s'.txs[d.txid]);
    assert Matches(s', d);
    hide Evolves, SameShape;
  }

  lemma {:induction false} HandleClientsKeepsInv(s: State, cfg: Config, node: Node, ds: seq<Dispatch>, height: BlockHeight,
                                                 fee: CoordinatedTx -> FeeInfo)
    requires Inv(s) && Distinct(ds)
    requires forall i :: 0 <= i < |ds| ==> ClientSnapshot(s, ds[i].tx)
    ensures Inv(HandleAll(s, cfg, node, ds, height, fee))
    decreases |ds|
  {
    hide Inv, HandleDispatchResult;
    if ds != [] {
      var next := HandleDispatchResult(s, cfg, node, ds[0], height, fee(ds[0].tx));
      ClientOutcomeHandles(s, cfg, node, ds[0], height, fee(ds[0].tx));
      forall i | 0 <= i < |ds[1..]| ensures ClientSnapshot(next, ds[1..][i].tx) {
        assert ds[1..][i] == ds[i + 1];
        assert ClientSnapshot(s, ds[i + 1].tx);
      }
      hide Handles, ClientSnapshot;
      HandleClientsKeepsInv(next, cfg, node, ds[1..], height, fee);
    }
  }

  // ---------------------------------------------------------------- batches list each transaction once

  ghost predicate DistinctTxs(rs: seq<CoordinatedTx>) {
    forall i, j :: 0 <= i < j < |rs| ==> rs[i].txid != rs[j].txid
  }

  lemma {:induction false} RetryFilterDistinct(rs: seq<CoordinatedTx>, ready: bool)
    requires DistinctTxs(rs)
    ensures DistinctTxs(RetryFilter(rs, ready))
  {
    if rs != [] {
      RetryFilterDistinct(rs[1..], ready);
      var rest := RetryFilter(rs[1..], ready);
      forall i | 0 <= i < |rest| ensures rest[i].txid != rs[0].txid {
        assert rest[i] in rs[1..];
      }
    }
  }

  lemma {:induction false} WaitingDistinct(rs: seq<CoordinatedTx>)
    requires DistinctTxs(rs)
    ensures DistinctTxs(WaitingRecords(rs))
  {
    if rs != [] {
      WaitingDistinct(rs[1..]);
      var rest := WaitingRecords(rs[1..]);
      forall i | 0 <= i < |rest| ensures rest[i].txid != rs[0].txid {
        assert rest[i] in rs[1..];
      }
    }
  }

  lemma {:induction false} RecordsDistinct(txs: map<Txid, CoordinatedTx>, ids: seq<Txid>)
    requires NoDup(ids) && forall t :: t in txs ==> txs[t].txid == t
    ensures DistinctTxs(Records(txs, ids))
    ensures forall i :: 0 <= i < |Records(txs, ids)| ==> Records(txs, ids)[i].txid in ids
  {
    if ids != [] {
      RecordsDistinct(txs, ids[1..]);
      assert ids[0] !in ids[1..];
    }
  }

  lemma {:induction false} ReadyDistinct(s: State, order: seq<Txid>, height: BlockHeight)
    requires NoDup(order) && KeysOk(s)
    ensures DistinctTxs(ReadyToDispatch(s, order, height))
    ensures forall i :: 0 <= i < |ReadyToDispatch(s, order, height)| ==>
              ReadyToDispatch(s, order, height)[i].txid in order && ClientSnapshot(s, ReadyToDispatch(s, order, height)[i])
  {
    if order != [] {
      ReadyDistinct(s, order[1..], height);
      assert order[0] !in order[1..];
    }
  }

  /** Every outcome belongs to the batch, and structural rejections are told apart from the sent ones. */
  lemma {:induction false} FatalFacts(cfg: Config, txs: seq<CoordinatedTx>)
    requires DistinctTxs(txs)
    ensures Distinct(FatalResults(cfg, txs))
    ensures forall i :: 0 <= i < |FatalResults(cfg, txs)| ==>
              FatalResults(cfg, txs)[i].tx in txs && Malformed(cfg, FatalResults(cfg, txs)[i].tx)
  {
    if txs != [] {
      FatalFacts(cfg, txs[1..]);
      var rest := FatalResults(cfg, txs[1..]);
      forall i | 0 <= i < |rest| ensures rest[i].tx.txid != txs[0].txid {
        assert rest[i].tx in txs[1..];
      }
    }
  }

  lemma {:induction false} SendFacts(s: State, cfg: Config, node: Node, txs: seq<CoordinatedTx>)
    requires DistinctTxs(txs)
    ensures Distinct(SendResults(s, cfg, node, txs))
    ensures forall i :: 0 <= i < |SendResults(s, cfg, node, txs)| ==>
              SendResults(s, cfg, node, txs)[i].tx in txs && !Malformed(cfg, SendResults(s, cfg, node, txs)[i].tx)
  {
    hide SendOne, Malformed;
    if txs != [] {
      SendFacts(s, cfg, node, txs[1..]);
      var rest := SendResults(s, cfg, node, txs[1..]);
      forall i | 0 <= i < |rest| ensures rest[i].tx.txid != txs[0].txid {
        assert rest[i].tx in txs[1..];
      }
    }
  }

  lemma TxidsTellApart(txs: seq<CoordinatedTx>, a: CoordinatedTx, b: CoordinatedTx)
    requires DistinctTxs(txs) && a in txs && b in txs && a != b
    ensures a.txid != b.txid
  {}

  lemma DispatchAllFacts(s: State, cfg: Config, node: Node, txs: seq<CoordinatedTx>)
    requires DistinctTxs(txs)
    ensures Distinct(DispatchAll(s, cfg, node, txs))
    ensures forall i :: 0 <= i < |DispatchAll(s, cfg, node, txs)| ==> DispatchAll(s, cfg, node, txs)[i].tx in txs
  {
    FatalFacts(cfg, txs);
    SendFacts(s, cfg, node, txs);
    hide FatalResults, SendResults, Malformed;
    var a: seq<Dispatch>, b: seq<Dispatch> := FatalResults(cfg, txs), SendResults(s, cfg, node, txs);
    forall i, j | 0 <= i < j < |a + b| ensures (a + b)[i].tx.txid != (a + b)[j].tx.txid {
      if i < |a| <= j {
        TxidsTellApart(txs, a[i].tx, b[j - |a|].tx);
      }
    }
  }

  // ---------------------------------------------------------------- steps 3 and 4

  lemma NoteRateKeepsInv(s: State, news: Option<News>)
    requires Inv(s)
    ensures Inv(NoteRate(s, news)) && NoteRate(s, news).txs == s.txs && NoteRate(s, news).speedups == s.speedups
  {
    hide Inv;
    if news.Some? {
      NewsKeepsInv(s, news.value);
    }
  }

  /** Step 3. No hypothesis on the node is needed: a client record is written by its own outcome only. */
  lemma DispatchPendingKeepsInv(s: State, cfg: Config, node: Node, order: seq<Txid>, retryReady: bool, estimate: Option<nat>,
                                height: BlockHeight)
    requires Inv(s) && NoDup(order)
    ensures Inv(DispatchPending(s, cfg, node, order, retryReady, estimate, height))
  {
    assert KeysOk(s);
    hide Inv, KeysOk;
    var ready := ReadyToDispatch(s, order, height);
    ReadyDistinct(s, order, height);
    hide ReadyToDispatch, Fees.NetworkFeeRate, Fees.ComputeFeeForTx, DispatchAll, RetryFilter;
    if ready != [] {
      var (rate, news) := Fees.NetworkFeeRate(cfg, estimate);
      var noted := NoteRate(s, news);
      NoteRateKeepsInv(s, news);
      var batch := RetryFilter(ready, retryReady);
      RetryFilterDistinct(ready, retryReady);
      DispatchAllFacts(noted, cfg, node, batch);
      var ds := DispatchAll(noted, cfg, node, batch);
      forall i | 0 <= i < |ds| ensures ClientSnapshot(noted, ds[i].tx) {
        assert ds[i].tx in batch && ds[i].tx in ready;
      }
      hide NoteRate, ClientSnapshot;
      HandleClientsKeepsInv(noted, cfg, node, ds, height, (tx: CoordinatedTx) => Fees.ComputeFeeForTx(tx.tx, rate));
    }
  }

  lemma BatchMember(s: State, retryReady: bool, d: CoordinatedTx)
    requires Inv(s) && d in SpeedupBatch(s, retryReady)
    ensures MayFall(s, d) && Snapshot(s, d)
  {
    assert d in SpeedupRecords(s) && d.state.ToDispatch?;
    var t :| t in s.speedups && t in s.txs && s.txs[t] == d;
    assert d.txid == t;
    assert Waiting(s, t);
    WaitingIsSafe(s, t);
    SameShapeReflexive(d);
    hide Structure, SharingOk, InheritOk, MaskOk, MarkOk, ReservedOk, ParentsOk, OnePrebuilt, SameShape, SafeToRelease;
    assert !Masked(s, t);
    assert LifeOf(d);
  }

  lemma BatchDistinct(s: State, retryReady: bool)
    requires KeysOk(s) && ListOk(s)
    ensures DistinctTxs(SpeedupBatch(s, retryReady))
  {
    RecordsDistinct(s.txs, s.speedups);
    WaitingDistinct(SpeedupRecords(s));
    RetryFilterDistinct(WaitingRecords(SpeedupRecords(s)), retryReady);
  }
}

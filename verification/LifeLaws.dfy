/** What a dispatch step leaves in every record, field by field, as its outcomes say (src/engines/common.rs:127-310). */
module LifeLaws {
  import opened Types
  import opened Oracles
  import Fees
  import opened States
  import opened Funding
  import opened Failures
  import opened Dispatching
  import opened Engines
  import opened Invariants
  import opened Evolution
  import opened FailureLaws
  import opened CascadeLaws
  import opened DispatchLaws
  import opened OutcomeLaws
  import opened CreationLaws
  import opened Runs
  import opened EventOutcomes
  import opened FeeLaws

  /** Everything of a record but its transaction, its kind and its marks. */
  datatype Life = Life(
    state: TransactionState,
    targetBlockHeight: BlockHeight,
    stuckInMempoolBlocks: Option<nat>,
    settledBlockHeight: Option<BlockHeight>,
    broadcastBlockHeight: Option<BlockHeight>,
    failGuardUntil: Option<BlockHeight>,
    retryCount: nat,
    feeInfo: FeeInfo)

  function LifeIn(r: CoordinatedTx): Life {
    Life(r.state, r.targetBlockHeight, r.stuckInMempoolBlocks, r.settledBlockHeight, r.broadcastBlockHeight, r.failGuardUntil,
         r.retryCount, r.feeInfo)
  }

  /** Settled Failed at `height`. */
  function Fallen(a: Life, height: BlockHeight): Life {
    a.(state := Failed, settledBlockHeight := Some(height))
  }

  /** Taken by the node: in the mempool since `height` at the fee of this dispatch, or found confirmed, where an earlier
      broadcast height stays. Its guard is gone. */
  function TakenLife(a: Life, node: Node, d: Dispatch, height: BlockHeight, fee: FeeInfo): Life {
    if d.outcome.Success? || node.confirmations(d.tx.txid) == Some(0) then
      a.(state := InMempool, broadcastBlockHeight := Some(height), failGuardUntil := None, feeInfo := fee)
    else
      a.(state := Confirmed, failGuardUntil := None,
         broadcastBlockHeight := if a.broadcastBlockHeight.Some? then a.broadcastBlockHeight else Some(height))
  }

  function Retried(a: Life, times: nat): Life {
    a.(retryCount := a.retryCount + times)
  }

  // ---------------------------------------------------------------- one settlement, one cascade

  ghost predicate SameLives(s: State, s': State) {
    s'.txs.Keys == s.txs.Keys && forall t :: t in s.txs ==> LifeIn(s'.txs[t]) == LifeIn(s.txs[t])
  }

  lemma SetSpentLives(s: State, op: OutPoint, spent: bool)
    ensures SameLives(s, SetSpent(s, op, spent))
  {}

  lemma {:induction false} ReleaseLives(s: State, us: seq<Utxo>)
    ensures SameLives(s, ReleaseMarks(s, us))
    decreases |us|
  {
    if us != [] {
      SetSpentLives(s, us[0].op, false);
      ReleaseLives(SetSpent(s, us[0].op, false), us[1..]);
    }
  }

  lemma MarkLives(s: State, p: Txid, mark: Option<Txid>)
    ensures SameLives(s, SetReplacedBy(s, p, mark))
  {}

  lemma ClaimsLives(s: State, d: CoordinatedTx)
    ensures SameLives(s, ReleaseClaims(s, d))
  {
    ReleaseLives(s, d.Claimed());
    if d.IsRBF() {
      MarkLives(ReleaseMarks(s, d.Claimed()), d.kind.speedup.predecessor, None);
    }
  }

  lemma SettleLife(s: State, d: CoordinatedTx, height: BlockHeight, fundingMissing: bool, t: Txid)
    requires t in s.txs
    ensures var s' := SettleFailedDispatch(s, d, height, fundingMissing);
      && t in s'.txs
      && LifeIn(s'.txs[t]) == if t == d.txid && s.txs[t].state.CanTransitionTo(Failed) then Fallen(LifeIn(s.txs[t]), height)
                              else LifeIn(s.txs[t])
  {
    hide ReleaseClaims;
    ClaimsLives(AddNews(SettleTx(s, d.txid, Failed, height), DispatchErrorNews(d)), d);
  }

  lemma {:induction false} ReplayLife(s: State, falls: seq<Fall>, height: BlockHeight, t: Txid)
    requires t in s.txs
    ensures t in Replay(s, falls, height).txs
    ensures var a, b := LifeIn(s.txs[t]), LifeIn(Replay(s, falls, height).txs[t]);
      && (b == a || b == Fallen(a, height))
      && ((forall i :: 0 <= i < |falls| ==> falls[i].tx.txid != t) ==> b == a)
    decreases |falls|
  {
    if falls != [] {
      SettleLife(s, falls[0].tx, height, falls[0].fundingMissing, t);
      hide SettleFailedDispatch;
      ReplayLife(SettleFailedDispatch(s, falls[0].tx, height, falls[0].fundingMissing), falls[1..], height, t);
    }
  }

  lemma CascadeLife(s: State, tx: CoordinatedTx, height: BlockHeight, fundingMissing: bool, t: Txid)
    requires KeysOk(s) && t in s.txs
    ensures var s' := FailAndCascade(s, tx, height, fundingMissing);
      && t in s'.txs
      && (LifeIn(s'.txs[t]) == LifeIn(s.txs[t]) || LifeIn(s'.txs[t]) == Fallen(LifeIn(s.txs[t]), height))
      && (t != tx.txid && !IsWaiting(s, t) ==> LifeIn(s'.txs[t]) == LifeIn(s.txs[t]))
  {
    var falls := Trace(s, tx, height, fundingMissing);
    CascadeIsReplay(s, tx, height, fundingMissing);
    TraceFalls(s, tx, height, fundingMissing);
    hide Trace, FailAndCascade, KeysOk;
    ReplayLife(s, falls, height, t);
    if t != tx.txid && !IsWaiting(s, t) {
      forall i | 0 <= i < |falls| ensures falls[i].tx.txid != t {
        assert i > 0 ==> FallsFrom(s, falls[i]);
      }
    }
  }

  // ---------------------------------------------------------------- one outcome

  lemma TakenLives(s: State, node: Node, d: Dispatch, height: BlockHeight, fee: FeeInfo, t: Txid)
    requires t in s.txs && Accepted(node, d)
    ensures var s' := if d.outcome.Success? || node.confirmations(d.tx.txid) == Some(0) then MarkAccepted(s, d.tx, height, fee)
                      else MarkAlreadyConfirmed(s, d.tx, height);
      && t in s'.txs
      && LifeIn(s'.txs[t]) == if t == d.tx.txid then TakenLife(LifeIn(d.tx), node, d, height, fee) else LifeIn(s.txs[t])
  {
    if d.tx.IsRBF() {
      MarkLives(s, d.tx.kind.speedup.predecessor, Some(d.tx.txid));
    }
    hide SetReplacedBy;
  }

  lemma FailingLife(s: State, cfg: Config, node: Node, d: Dispatch, height: BlockHeight, fee: FeeInfo, t: Txid)
    requires KeysOk(s) && t in s.txs && FailsRoot(cfg, node, d, height)
    ensures var s' := HandleDispatchResult(s, cfg, node, d, height, fee);
      && t in s'.txs
      && (LifeIn(s'.txs[t]) == LifeIn(s.txs[t]) || LifeIn(s'.txs[t]) == Fallen(LifeIn(s.txs[t]), height))
      && (t != d.tx.txid && !IsWaiting(s, t) ==> LifeIn(s'.txs[t]) == LifeIn(s.txs[t]))
  {
    hide HandleDispatchResult, FailsRoot, Accepted, FundingGone, ExternalGone, FailAndCascade, KeysOk, IsWaiting;
    HandledAs(s, cfg, node, d, height, fee);
    AcceptedDoesNotFail(cfg, node, d, height);
    CascadeLife(s, d.tx, height, true, t);
    CascadeLife(s, d.tx, height, false, t);
  }

  /** The life of every record after one outcome that does not fail. */
  lemma QuietLife(s: State, cfg: Config, node: Node, d: Dispatch, height: BlockHeight, fee: FeeInfo, t: Txid)
    requires t in s.txs && !FailsRoot(cfg, node, d, height)
    requires t == d.tx.txid ==> IsWaiting(s, t) || (s.txs[t].state.Failed? && !Accepted(node, d))
    ensures var s' := HandleDispatchResult(s, cfg, node, d, height, fee);
      && t in s'.txs
      && LifeIn(s'.txs[t]) == if t != d.tx.txid then LifeIn(s.txs[t])
                              else if Accepted(node, d) then TakenLife(LifeIn(d.tx), node, d, height, fee)
                              else if IsWaiting(s, t) then Retried(LifeIn(s.txs[t]), 1)
                              else LifeIn(s.txs[t])
  {
    hide HandleDispatchResult, FailsRoot, Accepted, FundingGone, ExternalGone, FailAndCascade, MarkAccepted, MarkAlreadyConfirmed;
    HandledAs(s, cfg, node, d, height, fee);
    if Accepted(node, d) {
      TakenLives(s, node, d, height, fee, t);
    }
  }

  // ---------------------------------------------------------------- a batch

  /** How the outcomes `done` over the store `s0` have changed the life of `t`. */
  ghost predicate Lived(s0: State, cfg: Config, node: Node, done: seq<Dispatch>, height: BlockHeight, fee: CoordinatedTx -> FeeInfo,
                        t: Txid, b: Life)
    requires t in s0.txs
  {
    var a := LifeIn(s0.txs[t]);
    if !IsWaiting(s0, t) then b == a
    else if Taken(node, done, t) then
      exists i :: 0 <= i < |done| && Accepted(node, done[i]) && done[i].tx.txid == t
                  && b == TakenLife(a, node, done[i], height, fee(s0.txs[t]))
    else if Felled(s0, cfg, node, done, height, t) then
      b == Fallen(a, height) || (HasOutcome(done, t) && b == Retried(Fallen(a, height), 1))
    else b == Retried(a, if HasOutcome(done, t) then 1 else 0)
  }

  lemma HasOutcomeGrows(done: seq<Dispatch>, d: Dispatch, t: Txid)
    ensures HasOutcome(done + [d], t) <==> HasOutcome(done, t) || d.tx.txid == t
  {
    var more := done + [d];
    if i :| 0 <= i < |done| && done[i].tx.txid == t {
      assert more[i].tx.txid == t;
    }
    if d.tx.txid == t {
      assert more[|done|].tx.txid == t;
    }
  }

  lemma TakenHasOutcome(node: Node, done: seq<Dispatch>, t: Txid)
    ensures Taken(node, done, t) ==> HasOutcome(done, t)
  {}

  lemma OwnOutcomeIsFirst(done: seq<Dispatch>, d: Dispatch, all: seq<Dispatch>)
    requires done + [d] <= all && Distinct(all)
    ensures !HasOutcome(done, d.tx.txid)
  {
    assert all[|done|] == (done + [d])[|done|];
    assert forall i :: 0 <= i < |done| ==> all[i] == (done + [d])[i] == done[i];
  }

  /** A record the outcome does not concern keeps what the earlier ones did to it. */
  lemma LivedStays(s0: State, cfg: Config, node: Node, done: seq<Dispatch>, d: Dispatch, height: BlockHeight,
                   fee: CoordinatedTx -> FeeInfo, t: Txid, b: Life)
    requires t in s0.txs && Lived(s0, cfg, node, done, height, fee, t, b) && t != d.tx.txid
    requires IsWaiting(s0, t) && !Taken(node, done, t) ==>
               (Felled(s0, cfg, node, done + [d], height, t) <==> Felled(s0, cfg, node, done, height, t))
    ensures Lived(s0, cfg, node, done + [d], height, fee, t, b)
  {
    hide Taken, Felled, HasOutcome, Accepted, IsWaiting;
    TakenGrows(node, done, d, t);
    HasOutcomeGrows(done, d, t);
    if IsWaiting(s0, t) && Taken(node, done, t) {
      var a := LifeIn(s0.txs[t]);
      var i :| 0 <= i < |done| && Accepted(node, done[i]) && done[i].tx.txid == t
               && b == TakenLife(a, node, done[i], height, fee(s0.txs[t]));
      assert (done + [d])[i] == done[i];
    }
  }

  /** The life of another record, whatever the outcome. */
  lemma OtherLife(s0: State, s: State, cfg: Config, node: Node, done: seq<Dispatch>, d: Dispatch, all: seq<Dispatch>,
                  height: BlockHeight, fee: CoordinatedTx -> FeeInfo, t: Txid)
    requires Tracks(s0, s, cfg, node, done, height) && ConsistentOutcomes(s0, cfg, node, all, height) && KeysOk(s)
    requires done + [d] <= all && Distinct(all) && IsWaiting(s0, d.tx.txid) && t in s0.txs && t in s.txs && t != d.tx.txid
    requires Lived(s0, cfg, node, done, height, fee, t, LifeIn(s.txs[t]))
    ensures var s' := HandleDispatchResult(s, cfg, node, d, height, fee(d.tx));
      && t in s'.txs && Lived(s0, cfg, node, done + [d], height, fee, t, LifeIn(s'.txs[t]))
  {
    var s' := HandleDispatchResult(s, cfg, node, d, height, fee(d.tx));
    hide HandleDispatchResult, FailsRoot, Accepted, Lived, Taken, Felled, ConsistentOutcomes, Distinct, KeysOk, Reaches;
    hide Evolves;
    if FailsRoot(cfg, node, d, height) {
      FailingLife(s, cfg, node, d, height, fee(d.tx), t);
    } else {
      QuietLife(s, cfg, node, d, height, fee(d.tx), t);
    }
    FelledGrows(s0, cfg, node, done, d, height, t);
    if IsWaiting(s0, t) {
      TrackOne(s0, s, cfg, node, done, d, all, height, fee(d.tx), t);
      TakenGrows(node, done, d, t);
      if !Taken(node, done, t) && !Felled(s0, cfg, node, done, height, t) && Felled(s0, cfg, node, done + [d], height, t) {
        NewlyFelled(s0, cfg, node, done, d, height, fee, t, LifeIn(s.txs[t]), LifeIn(s'.txs[t]));
      } else {
        assert LifeIn(s'.txs[t]) == LifeIn(s.txs[t]);
        LivedStays(s0, cfg, node, done, d, height, fee, t, LifeIn(s.txs[t]));
      }
    } else {
      assert LifeIn(s'.txs[t]) == LifeIn(s.txs[t]);
      LivedStays(s0, cfg, node, done, d, height, fee, t, LifeIn(s.txs[t]));
    }
  }

  lemma NewlyFelled(s0: State, cfg: Config, node: Node, done: seq<Dispatch>, d: Dispatch, height: BlockHeight,
                    fee: CoordinatedTx -> FeeInfo, t: Txid, b: Life, b': Life)
    requires IsWaiting(s0, t) && t != d.tx.txid && Lived(s0, cfg, node, done, height, fee, t, b)
    requires !Taken(node, done, t) && !Felled(s0, cfg, node, done, height, t) && Felled(s0, cfg, node, done + [d], height, t)
    requires b'.state.Failed? && (b' == b || b' == Fallen(b, height))
    ensures Lived(s0, cfg, node, done + [d], height, fee, t, b')
  {
    hide Taken, Felled, HasOutcome, Accepted;
    TakenGrows(node, done, d, t);
    HasOutcomeGrows(done, d, t);
  }

  /** The life of the record the outcome is for. */
  lemma OwnLife(s0: State, s: State, cfg: Config, node: Node, done: seq<Dispatch>, d: Dispatch, all: seq<Dispatch>,
                height: BlockHeight, fee: CoordinatedTx -> FeeInfo)
    requires Tracks(s0, s, cfg, node, done, height) && ConsistentOutcomes(s0, cfg, node, all, height) && KeysOk(s)
    requires done + [d] <= all && Distinct(all) && IsWaiting(s0, d.tx.txid) && d.tx == s0.txs[d.tx.txid] && d.tx.txid in s.txs
    requires Lived(s0, cfg, node, done, height, fee, d.tx.txid, LifeIn(s.txs[d.tx.txid]))
    ensures var s' := HandleDispatchResult(s, cfg, node, d, height, fee(d.tx));
      && d.tx.txid in s'.txs && Lived(s0, cfg, node, done + [d], height, fee, d.tx.txid, LifeIn(s'.txs[d.tx.txid]))
  {
    var t := d.tx.txid;
    var s' := HandleDispatchResult(s, cfg, node, d, height, fee(d.tx));
    hide HandleDispatchResult, FailsRoot, Accepted, Taken, Felled, ConsistentOutcomes, Distinct, KeysOk, Reaches, Evolves, HasOutcome;
    NextWaits(s0, s, cfg, node, done, d, all, height);
    TrackOne(s0, s, cfg, node, done, d, all, height, fee(d.tx), t);
    TakenGrows(node, done, d, t);
    FelledGrows(s0, cfg, node, done, d, height, t);
    HasOutcomeGrows(done, d, t);
    OwnOutcomeIsFirst(done, d, all);
    AcceptedDoesNotFail(cfg, node, d, height);
    if FailsRoot(cfg, node, d, height) {
      FailingLife(s, cfg, node, d, height, fee(d.tx), t);
    } else {
      QuietLife(s, cfg, node, d, height, fee(d.tx), t);
      if Accepted(node, d) {
        assert (done + [d])[|done|] == d;
      }
    }
  }

  lemma {:induction false} BatchLife(s0: State, s: State, cfg: Config, node: Node, done: seq<Dispatch>, rest: seq<Dispatch>,
                                     height: BlockHeight, fee: CoordinatedTx -> FeeInfo, t: Txid)
    requires Inv(s) && Tracks(s0, s, cfg, node, done, height) && ConsistentOutcomes(s0, cfg, node, done + rest, height)
    requires Distinct(done + rest)
    requires forall i :: 0 <= i < |rest| ==> IsWaiting(s0, rest[i].tx.txid) && BatchItem(s, rest[i].tx)
    requires forall i :: 0 <= i < |rest| ==> rest[i].tx == s0.txs[rest[i].tx.txid]
    requires t in s0.txs && t in s.txs && Lived(s0, cfg, node, done, height, fee, t, LifeIn(s.txs[t]))
    ensures var s' := HandleAll(s, cfg, node, rest, height, fee);
            t in s'.txs && Lived(s0, cfg, node, done + rest, height, fee, t, LifeIn(s'.txs[t]))
    decreases |rest|
  {
    hide Inv, Tracks, ConsistentOutcomes, HandleDispatchResult, BatchItem, Handles, Evolves, KeysOk, Accepted, FailsRoot, Lived;
    if rest == [] {
      assert done + rest == done;
    } else {
      var d, all := rest[0], done + rest;
      var next := HandleDispatchResult(s, cfg, node, d, height, fee(d.tx));
      assert done + [d] <= all by { assert rest == [d] + rest[1..]; }
      InvKeyed(s);
      NextWaits(s0, s, cfg, node, done, d, all, height);
      ItemHandles(s, cfg, node, d, height, fee(d.tx));
      HandlesEvolves(s, next, d.tx.txid);
      TracksNext(s0, s, cfg, node, done, d, all, height, fee(d.tx));
      assert done + [d] + rest[1..] == all;
      forall i | 0 <= i < |rest[1..]|
        ensures IsWaiting(s0, rest[1..][i].tx.txid) && BatchItem(next, rest[1..][i].tx)
        ensures rest[1..][i].tx == s0.txs[rest[1..][i].tx.txid]
      {
        assert rest[1..][i] == rest[i + 1];
        assert all[|done|] == d && all[|done| + i + 1] == rest[i + 1];
        ItemAdvances(s, next, d.tx.txid, rest[i + 1].tx);
      }
      if t == d.tx.txid {
        OwnLife(s0, s, cfg, node, done, d, all, height, fee);
      } else {
        OtherLife(s0, s, cfg, node, done, d, all, height, fee, t);
      }
      BatchLife(s0, next, cfg, node, done + [d], rest[1..], height, fee, t);
    }
  }

  lemma LivedStart(s: State, cfg: Config, node: Node, height: BlockHeight, fee: CoordinatedTx -> FeeInfo, t: Txid)
    requires t in s.txs
    ensures Lived(s, cfg, node, [], height, fee, t, LifeIn(s.txs[t]))
  {}

  // ---------------------------------------------------------------- steps 3 and 4

  lemma NotedFelled(s: State, noted: State, cfg: Config, node: Node, ds: seq<Dispatch>, height: BlockHeight, t: Txid)
    requires noted.txs == s.txs && SameCore(s, noted)
    ensures Felled(noted, cfg, node, ds, height, t) == Felled(s, cfg, node, ds, height, t)
  {
    hide Reaches, FailsRoot, SameCore;
    forall root ensures Reaches(noted, root, t) == Reaches(s, root, t) {
      CoreReaches(s, noted, root, t);
    }
  }

  lemma NotedLived(s: State, noted: State, cfg: Config, node: Node, ds: seq<Dispatch>, height: BlockHeight,
                   fee: CoordinatedTx -> FeeInfo, t: Txid, b: Life)
    requires noted.txs == s.txs && SameCore(s, noted) && t in s.txs && Lived(noted, cfg, node, ds, height, fee, t, b)
    ensures Lived(s, cfg, node, ds, height, fee, t, b)
  {
    hide Taken, Felled, HasOutcome, Accepted, SameCore;
    NotedFelled(s, noted, cfg, node, ds, height, t);
  }

  lemma SpeedupLife(s: State, cfg: Config, node: Node, retryReady: bool, height: BlockHeight, t: Txid)
    requires Inv(s) && ConsistentNode(s, cfg, node, retryReady, height) && t in s.txs
    ensures var s' := DispatchPendingSpeedups(s, cfg, node, retryReady, height);
      && t in s'.txs
      && Lived(s, cfg, node, SpeedupOutcomes(s, cfg, node, retryReady), height, KeepFee, t, LifeIn(s'.txs[t]))
  {
    hide Inv, MayFall, Snapshot, ClientSnapshot, Tracks, ConsistentOutcomes, DispatchAll, SpeedupBatch, HandleAll, Lived;
    var ds := SpeedupOutcomes(s, cfg, node, retryReady);
    SpeedupItems(s, cfg, node, retryReady);
    TracksStart(s, cfg, node, height);
    LivedStart(s, cfg, node, height, KeepFee, t);
    forall i | 0 <= i < |ds| ensures ds[i].tx.txid in s.txs && ds[i].tx == s.txs[ds[i].tx.txid] {
      BatchIsWaiting(s, retryReady, ds[i].tx);
    }
    assert [] + ds == ds;
    BatchLife(s, s, cfg, node, [], ds, height, KeepFee, t);
  }

  /** What a client transaction pays when it is sent. */
  function FeeAtRate(r: CoordinatedTx, rate: nat): FeeInfo {
    FeeInfo(r.tx.vsize * rate, rate, rate, r.tx.weight)
  }

  lemma ClientLife(s: State, cfg: Config, node: Node, order: seq<Txid>, retryReady: bool, estimate: Option<nat>, height: BlockHeight,
                   t: Txid)
    requires Inv(s) && NoDup(order) && t in s.txs
    ensures var s' := DispatchPending(s, cfg, node, order, retryReady, estimate, height);
            var rate := NetworkRate(cfg, estimate);
      && t in s'.txs
      && Lived(s, cfg, node, ClientOutcomes(s, cfg, node, order, retryReady, height), height, tx => FeeAtRate(tx, rate), t,
               LifeIn(s'.txs[t]))
  {
    hide Inv, NoDup, MayFall, Snapshot, Tracks, ConsistentOutcomes, SendResults, FatalResults, HandleAll, SameCore;
    hide ReadyToDispatch, Fees.NetworkFeeRate, Fees.ComputeFeeForTx, NoteRate, ClientSnapshot, NetworkRate, FeeAtRate;
    var ready := ReadyToDispatch(s, order, height);
    var ds := ClientOutcomes(s, cfg, node, order, retryReady, height);
    ClientItems(s, cfg, node, order, retryReady, height);
    var (rate, news) := Fees.NetworkFeeRate(cfg, estimate);
    var fee := (tx: CoordinatedTx) => FeeAtRate(tx, rate);
    NetworkRateIs(cfg, estimate);
    if ready != [] {
      var noted := NoteRate(s, news);
      var fee' := (tx: CoordinatedTx) => Fees.ComputeFeeForTx(tx.tx, rate);
      NoteRateKeepsInv(s, news);
      NotedCore(s, news);
      SendIgnoresCore(s, noted, cfg, node, RetryFilter(ready, retryReady));
      forall i | 0 <= i < |ds|
        ensures BatchItem(noted, ds[i].tx) && IsWaiting(noted, ds[i].tx.txid) && ClientSnapshot(noted, ds[i].tx)
        ensures ds[i].tx == noted.txs[ds[i].tx.txid]
      {
        NotedItem(s, noted, ds[i].tx);
        SnapshotStored(noted, ds[i].tx);
      }
      ClientsAreConsistent(noted, cfg, node, ds, height);
      TracksStart(noted, cfg, node, height);
      LivedStart(noted, cfg, node, height, fee', t);
      assert [] + ds == ds;
      BatchLife(noted, noted, cfg, node, [], ds, height, fee', t);
      NotedLived(s, noted, cfg, node, ds, height, fee', t, LifeIn(HandleAll(noted, cfg, node, ds, height, fee').txs[t]));
      FeesAgree(s, cfg, node, ds, height, fee', rate, t, LifeIn(HandleAll(noted, cfg, node, ds, height, fee').txs[t]));
    } else {
      NoOutcomes(s, cfg, node);
      LivedStart(s, cfg, node, height, fee, t);
    }
  }

  lemma SnapshotStored(s: State, d: CoordinatedTx)
    requires ClientSnapshot(s, d)
    ensures d.txid in s.txs && d == s.txs[d.txid]
  {}

  lemma FeesAgree(s: State, cfg: Config, node: Node, ds: seq<Dispatch>, height: BlockHeight, fee: CoordinatedTx -> FeeInfo, rate: nat,
                  t: Txid, b: Life)
    requires t in s.txs && Lived(s, cfg, node, ds, height, fee, t, b)
    requires fee(s.txs[t]) == Fees.ComputeFeeForTx(s.txs[t].tx, rate)
    ensures Lived(s, cfg, node, ds, height, tx => FeeAtRate(tx, rate), t, b)
  {
    hide Taken, Felled, HasOutcome, Accepted;
  }

  /** The fee an acceptance records: a client transaction is priced anew, a speedup keeps its price. */
  function FeeRecorded(cfg: Config, e: Event, r: CoordinatedTx): FeeInfo {
    if e.DispatchClientsEvent? then FeeAtRate(r, NetworkRate(cfg, e.estimate)) else r.feeInfo
  }

  /** Every record after a dispatch step, whatever the order of its outcomes: who did not wait is as before; who the node has
      is live, with this height and no guard; who failed is settled at this height; and who still waits has counted one retry
      if an outcome was for it. */
  lemma DispatchLife(s: State, cfg: Config, e: Event, t: Txid)
    requires Inv(s) && Admissible(s, cfg, e) && IsDispatch(e) && t in s.txs
    ensures t in Step(s, cfg, e).txs && SameShape(s.txs[t], Step(s, cfg, e).txs[t])
    ensures var a, b := LifeIn(s.txs[t]), LifeIn(Step(s, cfg, e).txs[t]);
            var ds := Outcomes(s, cfg, e);
      && (!IsWaiting(s, t) ==> b == a)
      && (IsWaiting(s, t) && Taken(e.node, ds, t) ==>
            exists i :: 0 <= i < |ds| && Accepted(e.node, ds[i]) && ds[i].tx.txid == t
                        && b == TakenLife(a, e.node, ds[i], e.height, FeeRecorded(cfg, e, s.txs[t])))
      && (IsWaiting(s, t) && Felled(s, cfg, e.node, ds, e.height, t) ==>
            b == Fallen(a, e.height) || (HasOutcome(ds, t) && b == Retried(Fallen(a, e.height), 1)))
      && (IsWaiting(s, t) && !Taken(e.node, ds, t) && !Felled(s, cfg, e.node, ds, e.height, t) ==>
            b == Retried(a, if HasOutcome(ds, t) then 1 else 0))
  {
    hide Inv, NoDup, ConsistentNode, ClientOutcomes, SpeedupOutcomes, DispatchPending, DispatchPendingSpeedups, HasOutcome, Felled;
    hide Taken, Accepted, Tracks, ConsistentOutcomes, Distinct, NetworkRate;
    EventTracks(s, cfg, e);
    TrackedShape(s, Step(s, cfg, e), cfg, e.node, Outcomes(s, cfg, e), e.height, t);
    EventConsistent(s, cfg, e);
    TakenIsNotFelled(s, cfg, e.node, Outcomes(s, cfg, e), e.height, t);
    match e
    case DispatchClientsEvent(node, order, ready, estimate, height) => ClientLife(s, cfg, node, order, ready, estimate, height, t);
    case DispatchSpeedupsEvent(node, ready, height) => SpeedupLife(s, cfg, node, ready, height, t);
  }

  lemma TrackedShape(s0: State, s: State, cfg: Config, node: Node, done: seq<Dispatch>, height: BlockHeight, t: Txid)
    requires Tracks(s0, s, cfg, node, done, height) && t in s0.txs
    ensures t in s.txs && SameShape(s0.txs[t], s.txs[t])
  {}
}

/** What a whole batch of outcomes does to the waiting transactions, whatever the order of the outcomes: step 4
    under the hypothesis on the node. */
module OutcomeLaws {
  import opened Types
  import opened Oracles
  import Fees
  import opened States
  import opened Failures
  import opened Dispatching
  import opened Engines
  import opened Invariants
  import opened Evolution
  import opened FailureLaws
  import opened CascadeLaws
  import opened DispatchLaws

  // ---------------------------------------------------------------- outcomes of a batch

  /** Some failing outcome of `ds` is for `e` itself or cascades to `e`. */
  ghost predicate Felled(s: State, cfg: Config, node: Node, ds: seq<Dispatch>, height: BlockHeight, e: Txid) {
    exists j :: 0 <= j < |ds| && FailsRoot(cfg, node, ds[j], height)
                && (ds[j].tx.txid == e || Reaches(s, ds[j].tx.txid, e))
  }

  /** The node has `e`. */
  ghost predicate Taken(node: Node, ds: seq<Dispatch>, e: Txid) {
    exists j :: 0 <= j < |ds| && Accepted(node, ds[j]) && ds[j].tx.txid == e
  }

  /** H3 on the outcomes: the node does not take a transaction whose funding or covered parents, through waiting
      speedups, lead back to a transaction of the same batch that fails. */
  ghost predicate ConsistentOutcomes(s: State, cfg: Config, node: Node, ds: seq<Dispatch>, height: BlockHeight) {
    forall i, j :: 0 <= i < |ds| && 0 <= j < |ds| && Accepted(node, ds[i]) && FailsRoot(cfg, node, ds[j], height) ==>
      !Reaches(s, ds[j].tx.txid, ds[i].tx.txid)
  }

  predicate IsWaiting(s: State, e: Txid) {
    e in s.txs && s.txs[e].state.ToDispatch?
  }

  /** `s` is the store after the outcomes `done`, taken over the store `s0`. */
  ghost predicate Tracks(s0: State, s: State, cfg: Config, node: Node, done: seq<Dispatch>, height: BlockHeight) {
    && Evolves(s0, s)
    && (forall e :: IsWaiting(s, e) ==> IsWaiting(s0, e))
    && (forall e :: IsWaiting(s0, e) ==>
          e in s.txs
          && (Taken(node, done, e) ==> s.txs[e].state.OnNode())
          && (!Taken(node, done, e) ==> s.txs[e].state == if Felled(s0, cfg, node, done, height, e) then Failed else ToDispatch))
  }

  // ---------------------------------------------------------------- one outcome

  lemma AcceptedDoesNotFail(cfg: Config, node: Node, d: Dispatch, height: BlockHeight)
    ensures Accepted(node, d) ==> !FailsRoot(cfg, node, d, height)
  {}

  lemma AcceptStates(s: State, tx: CoordinatedTx, r: CoordinatedTx, e: Txid)
    requires e in s.txs && r.txid == tx.txid
    ensures var s' := Put(MarkReplaced(s, tx), tx.txid, r);
            e in s'.txs && s'.txs[e].state == if e == tx.txid then r.state else s.txs[e].state
  {}

  /** The state every waiting record has after one outcome. */
  lemma OutcomeStates(s: State, cfg: Config, node: Node, d: Dispatch, height: BlockHeight, fee: FeeInfo, e: Txid)
    requires KeysOk(s) && e in s.txs
    requires e == d.tx.txid ==> s.txs[e].state.ToDispatch? || (s.txs[e].state.Failed? && !Accepted(node, d))
    ensures var s' := HandleDispatchResult(s, cfg, node, d, height, fee);
            e in s'.txs
            && (Accepted(node, d) ==>
                  if e == d.tx.txid then s'.txs[e].state.OnNode() else s'.txs[e].state == s.txs[e].state)
            && (!Accepted(node, d) && !FailsRoot(cfg, node, d, height) ==> s'.txs[e].state == s.txs[e].state)
            && (FailsRoot(cfg, node, d, height) ==>
                  s'.txs[e].state == if Falls(s, d.tx.txid, e) then Failed else s.txs[e].state)
  {
    hide HandleDispatchResult, FailsRoot, Accepted, FundingGone, ExternalGone, FailAndCascade, MarkAccepted, MarkAlreadyConfirmed;
    hide Falls, KeysOk;
    var tx := d.tx;
    HandledAs(s, cfg, node, d, height, fee);
    AcceptedDoesNotFail(cfg, node, d, height);
    CascadeIsClosure(s, tx, height, true, e);
    CascadeIsClosure(s, tx, height, false, e);
    TakenStates(s, tx, height, fee, e);
  }

  lemma TakenStates(s: State, tx: CoordinatedTx, height: BlockHeight, fee: FeeInfo, e: Txid)
    requires e in s.txs
    ensures e in MarkAccepted(s, tx, height, fee).txs && e in MarkAlreadyConfirmed(s, tx, height).txs
    ensures MarkAccepted(s, tx, height, fee).txs[e].state == if e == tx.txid then InMempool else s.txs[e].state
    ensures MarkAlreadyConfirmed(s, tx, height).txs[e].state == if e == tx.txid then Confirmed else s.txs[e].state
  {
    hide MarkReplaced;
    AcceptStates(s, tx, tx.(state := InMempool, broadcastBlockHeight := Some(height), feeInfo := fee, failGuardUntil := None), e);
    AcceptStates(s, tx, MarkAlreadyConfirmed(s, tx, height).txs[tx.txid], e);
  }

  // ---------------------------------------------------------------- reachability does not depend on the order

  lemma WaitingIsPending(s0: State, s: State, e: Txid)
    requires Evolves(s0, s) && e in Pending(s0)
    ensures e in s.txs && (e in Pending(s) <==> IsWaiting(s, e))
    ensures IsWaiting(s0, e)
  {
    assert SameShape(s0.txs[e], s.txs[e]);
  }

  lemma {:induction false} ReachedBefore(s0: State, s: State, root: Txid, e: Txid, n: nat)
    requires Evolves(s0, s) && (forall x :: IsWaiting(s, x) ==> IsWaiting(s0, x)) && ReachesIn(s, root, e, n)
    ensures ReachesIn(s0, root, e, n)
    decreases n
  {
    assert e in Pending(s0) by {
      assert IsWaiting(s, e);
      assert SameShape(s0.txs[e], s.txs[e]);
    }
    hide Evolves, Pending;
    assert e in s0.txs && e in s.txs by { PendingStored(s0); PendingStored(s); }
    if n == 0 {
      EvolvedDepends(s0, s, e, root);
    } else {
      var z :| ReachesIn(s, root, z, n - 1) && RestsOn(s.txs[e], z);
      ReachedBefore(s0, s, root, z, n - 1);
      EvolvedDepends(s0, s, e, z);
    }
  }

  /** A step on the way to a transaction that still waits still waits itself. */
  lemma OnTheWay(s0: State, s: State, cfg: Config, node: Node, done: seq<Dispatch>, all: seq<Dispatch>, height: BlockHeight,
                 root: Dispatch, z: Txid, e: Txid)
    requires Tracks(s0, s, cfg, node, done, height) && ConsistentOutcomes(s0, cfg, node, all, height) && done <= all
    requires root in all && FailsRoot(cfg, node, root, height) && Reaches(s0, root.tx.txid, z)
    requires z in Pending(s0) && e in Pending(s0) && RestsOn(s0.txs[e], z) && IsWaiting(s, e)
    ensures IsWaiting(s, z)
  {
    hide Evolves, FailsRoot, Accepted, Reaches, Pending;
    assert IsWaiting(s0, z) && IsWaiting(s0, e) by { PendingWaits(s0, z); PendingWaits(s0, e); }
    var j :| 0 <= j < |all| && all[j] == root;
    forall i | 0 <= i < |done| && Accepted(node, done[i]) ensures done[i].tx.txid != z {
      assert all[i] == done[i];
    }
    assert Felled(s0, cfg, node, done, height, z) ==> Felled(s0, cfg, node, done, height, e) by {
      if j :| 0 <= j < |done| && FailsRoot(cfg, node, done[j], height) && (done[j].tx.txid == z || Reaches(s0, done[j].tx.txid, z)) {
        FelledExtends(s0, done[j].tx.txid, z, e);
      }
    }
  }

  lemma PendingWaits(s: State, e: Txid)
    requires e in Pending(s)
    ensures IsWaiting(s, e) && IsSpeedup(s, e)
  {}

  lemma FelledExtends(s: State, d: Txid, z: Txid, e: Txid)
    requires z in Pending(s) && e in Pending(s) && RestsOn(s.txs[e], z)
    requires d == z || Reaches(s, d, z)
    ensures Reaches(s, d, e)
  {
    if d == z {
      ReachFirst(s, d, e);
    } else {
      ReachExtends(s, d, z, e);
    }
  }

  lemma TracksEvolves(s0: State, s: State, cfg: Config, node: Node, done: seq<Dispatch>, height: BlockHeight)
    requires Tracks(s0, s, cfg, node, done, height)
    ensures Evolves(s0, s)
  {}

  lemma {:induction false} StillReached(s0: State, s: State, cfg: Config, node: Node, done: seq<Dispatch>, all: seq<Dispatch>,
                                        height: BlockHeight, root: Dispatch, e: Txid, n: nat)
    requires Tracks(s0, s, cfg, node, done, height) && ConsistentOutcomes(s0, cfg, node, all, height) && done <= all
    requires root in all && FailsRoot(cfg, node, root, height) && ReachesIn(s0, root.tx.txid, e, n) && IsWaiting(s, e)
    ensures Reaches(s, root.tx.txid, e)
    decreases n
  {
    hide Tracks, Evolves, ConsistentOutcomes, FailsRoot, Reaches, Pending;
    TracksEvolves(s0, s, cfg, node, done, height);
    WaitingIsPending(s0, s, e);
    assert e in s0.txs && e in s.txs by { PendingStored(s0); PendingStored(s); }
    if n == 0 {
      EvolvedDepends(s0, s, e, root.tx.txid);
      ReachFirst(s, root.tx.txid, e);
    } else {
      var z :| ReachesIn(s0, root.tx.txid, z, n - 1) && RestsOn(s0.txs[e], z);
      assert Reaches(s0, root.tx.txid, z) by { ReachedIn(s0, root.tx.txid, z, n - 1); }
      OnTheWay(s0, s, cfg, node, done, all, height, root, z, e);
      StillReached(s0, s, cfg, node, done, all, height, root, z, n - 1);
      EvolvedDepends(s0, s, e, z);
      ReachExtends(s, root.tx.txid, z, e);
    }
  }

  lemma ReachedIn(s: State, root: Txid, e: Txid, n: nat)
    requires ReachesIn(s, root, e, n)
    ensures Reaches(s, root, e)
  {}

  /** Among the transactions still waiting, what a failing outcome reaches now is what it reached at the start. */
  lemma SameReach(s0: State, s: State, cfg: Config, node: Node, done: seq<Dispatch>, all: seq<Dispatch>, height: BlockHeight,
                  root: Dispatch, e: Txid)
    requires Tracks(s0, s, cfg, node, done, height) && ConsistentOutcomes(s0, cfg, node, all, height) && done <= all
    requires root in all && FailsRoot(cfg, node, root, height) && IsWaiting(s, e)
    ensures Reaches(s, root.tx.txid, e) <==> Reaches(s0, root.tx.txid, e)
  {
    hide Evolves, ConsistentOutcomes, FailsRoot, ReachesIn, Taken, Felled;
    if Reaches(s0, root.tx.txid, e) {
      var n: nat :| ReachesIn(s0, root.tx.txid, e, n);
      StillReached(s0, s, cfg, node, done, all, height, root, e, n);
    }
    if Reaches(s, root.tx.txid, e) {
      var n: nat :| ReachesIn(s, root.tx.txid, e, n);
      ReachedBefore(s0, s, root.tx.txid, e, n);
    }
  }

  // ---------------------------------------------------------------- one outcome after the others

  lemma TakenGrows(node: Node, done: seq<Dispatch>, d: Dispatch, e: Txid)
    ensures Taken(node, done + [d], e) <==> Taken(node, done, e) || (Accepted(node, d) && d.tx.txid == e)
  {
    hide Accepted;
    var more := done + [d];
    if i :| 0 <= i < |done| && Accepted(node, done[i]) && done[i].tx.txid == e {
      assert more[i] == done[i];
    }
    if Accepted(node, d) && d.tx.txid == e {
      assert more[|done|] == d;
    }
  }

  lemma FelledGrows(s: State, cfg: Config, node: Node, done: seq<Dispatch>, d: Dispatch, height: BlockHeight, e: Txid)
    ensures Felled(s, cfg, node, done + [d], height, e) <==>
              Felled(s, cfg, node, done, height, e)
              || (FailsRoot(cfg, node, d, height) && (d.tx.txid == e || Reaches(s, d.tx.txid, e)))
  {
    hide FailsRoot, Reaches;
    var more := done + [d];
    if j :| 0 <= j < |done| && FailsRoot(cfg, node, done[j], height) && (done[j].tx.txid == e || Reaches(s, done[j].tx.txid, e)) {
      assert more[j] == done[j];
    }
    if FailsRoot(cfg, node, d, height) && (d.tx.txid == e || Reaches(s, d.tx.txid, e)) {
      assert more[|done|] == d;
    }
  }

  /** The next transaction of the batch is untouched, or was taken down by an earlier failing outcome; it waits
      whenever the node turns out to have it. */
  lemma NextWaits(s0: State, s: State, cfg: Config, node: Node, done: seq<Dispatch>, d: Dispatch, all: seq<Dispatch>,
                  height: BlockHeight)
    requires Tracks(s0, s, cfg, node, done, height) && ConsistentOutcomes(s0, cfg, node, all, height)
    requires done + [d] <= all && Distinct(all) && IsWaiting(s0, d.tx.txid)
    ensures !Taken(node, done, d.tx.txid)
    ensures d.tx.txid in s.txs
    ensures s.txs[d.tx.txid].state.ToDispatch? || (s.txs[d.tx.txid].state.Failed? && !Accepted(node, d))
  {
    hide Evolves, FailsRoot, Accepted, Reaches;
    var n := |done|;
    assert all[n] == d by { assert (done + [d])[n] == d; }
    assert forall i :: 0 <= i < n ==> all[i] == done[i] by { assert forall i :: 0 <= i < n ==> (done + [d])[i] == done[i]; }
    assert forall i :: 0 <= i < n ==> done[i].tx.txid != d.tx.txid;
    forall j | 0 <= j < n && FailsRoot(cfg, node, done[j], height)
      ensures Accepted(node, d) ==> !Reaches(s0, done[j].tx.txid, d.tx.txid)
    {
      assert all[j] == done[j];
    }
  }

  lemma TrackOne(s0: State, s: State, cfg: Config, node: Node, done: seq<Dispatch>, d: Dispatch, all: seq<Dispatch>,
                 height: BlockHeight, fee: FeeInfo, e: Txid)
    requires Tracks(s0, s, cfg, node, done, height) && ConsistentOutcomes(s0, cfg, node, all, height) && KeysOk(s)
    requires done + [d] <= all && Distinct(all) && IsWaiting(s0, d.tx.txid) && IsWaiting(s0, e)
    ensures var s' := HandleDispatchResult(s, cfg, node, d, height, fee);
      && e in s'.txs
      && (Taken(node, done + [d], e) ==> s'.txs[e].state.OnNode())
      && (!Taken(node, done + [d], e) ==>
            s'.txs[e].state == if Felled(s0, cfg, node, done + [d], height, e) then Failed else ToDispatch)
  {
    hide Evolves, FailsRoot, Accepted, Reaches, HandleDispatchResult, Taken, Felled, ConsistentOutcomes, Distinct, KeysOk;
    NextWaits(s0, s, cfg, node, done, d, all, height);
    TakenGrows(node, done, d, e);
    FelledGrows(s0, cfg, node, done, d, height, e);
    AcceptedDoesNotFail(cfg, node, d, height);
    OutcomeStates(s, cfg, node, d, height, fee, e);
    if FailsRoot(cfg, node, d, height) && IsWaiting(s, e) && e != d.tx.txid {
      assert d in all by { assert (done + [d])[|done|] == d; }
      SameReach(s0, s, cfg, node, done, all, height, d, e);
      ReachedPends(s, d.tx.txid, e);
    }
    OnNodeStays(s, d.tx.txid, e);
  }

  lemma ReachedPends(s: State, root: Txid, e: Txid)
    ensures Reaches(s, root, e) ==> e in Pending(s)
  {
    if Reaches(s, root, e) {
      var n: nat :| ReachesIn(s, root, e, n);
    }
  }

  lemma OnNodeStays(s: State, root: Txid, e: Txid)
    requires e in s.txs
    ensures s.txs[e].state.OnNode() && e != root ==> !Falls(s, root, e)
    ensures IsWaiting(s, e) && e == root ==> Falls(s, root, e)
    ensures IsWaiting(s, e) && e != root && !Reaches(s, root, e) ==> !Falls(s, root, e)
    ensures IsWaiting(s, e) && e in Pending(s) && Reaches(s, root, e) ==> Falls(s, root, e)
  {
    hide Reaches;
  }

  lemma WaitingStays(s: State, cfg: Config, node: Node, d: Dispatch, height: BlockHeight, fee: FeeInfo, e: Txid)
    requires KeysOk(s) && d.tx.txid in s.txs
    requires s.txs[d.tx.txid].state.ToDispatch? || (s.txs[d.tx.txid].state.Failed? && !Accepted(node, d))
    requires Evolves(s, HandleDispatchResult(s, cfg, node, d, height, fee))
    ensures IsWaiting(HandleDispatchResult(s, cfg, node, d, height, fee), e) ==> IsWaiting(s, e)
  {
    hide HandleDispatchResult, Accepted, FailsRoot, Falls, KeysOk;
    if e in s.txs {
      AcceptedDoesNotFail(cfg, node, d, height);
      OutcomeStates(s, cfg, node, d, height, fee, e);
    }
  }

  lemma TracksNext(s0: State, s: State, cfg: Config, node: Node, done: seq<Dispatch>, d: Dispatch, all: seq<Dispatch>,
                   height: BlockHeight, fee: FeeInfo)
    requires Tracks(s0, s, cfg, node, done, height) && ConsistentOutcomes(s0, cfg, node, all, height) && KeysOk(s)
    requires done + [d] <= all && Distinct(all) && IsWaiting(s0, d.tx.txid)
    requires Evolves(s, HandleDispatchResult(s, cfg, node, d, height, fee))
    ensures Tracks(s0, HandleDispatchResult(s, cfg, node, d, height, fee), cfg, node, done + [d], height)
  {
    var s' := HandleDispatchResult(s, cfg, node, d, height, fee);
    hide HandleDispatchResult, Evolves, FailsRoot, Accepted, Reaches, Taken, Felled, ConsistentOutcomes, Distinct, KeysOk;
    EvolvesTransitive(s0, s, s');
    NextWaits(s0, s, cfg, node, done, d, all, height);
    forall e | IsWaiting(s', e) ensures IsWaiting(s0, e) {
      WaitingStays(s, cfg, node, d, height, fee, e);
    }
    forall e | IsWaiting(s0, e)
      ensures e in s'.txs
      ensures Taken(node, done + [d], e) ==> s'.txs[e].state.OnNode()
      ensures !Taken(node, done + [d], e) ==>
                s'.txs[e].state == if Felled(s0, cfg, node, done + [d], height, e) then Failed else ToDispatch
    {
      TrackOne(s0, s, cfg, node, done, d, all, height, fee, e);
    }
  }

  // ---------------------------------------------------------------- the whole batch

  /** A member of a batch that may still be handled: a client record as stored, or a snapshot of a speedup. */
  ghost predicate BatchItem(s: State, d: CoordinatedTx) {
    MayFall(s, d) && (Snapshot(s, d) || ClientSnapshot(s, d))
  }

  lemma ItemHandles(s: State, cfg: Config, node: Node, d: Dispatch, height: BlockHeight, fee: FeeInfo)
    requires Inv(s) && BatchItem(s, d.tx)
    requires d.tx.txid in s.txs && (Accepted(node, d) ==> s.txs[d.tx.txid].state.ToDispatch?)
    ensures Inv(HandleDispatchResult(s, cfg, node, d, height, fee))
    ensures Handles(s, HandleDispatchResult(s, cfg, node, d, height, fee), d.tx.txid)
  {
    hide Inv, MayFall, Snapshot, ClientSnapshot, Handles, HandleDispatchResult, Accepted;
    if Snapshot(s, d.tx) {
      SpeedupOutcomeHandles(s, cfg, node, d, height, fee);
    } else {
      ClientOutcomeHandles(s, cfg, node, d, height, fee);
    }
  }

  lemma ItemAdvances(s: State, s': State, t: Txid, d: CoordinatedTx)
    requires Handles(s, s', t) && BatchItem(s, d) && d.txid != t
    ensures BatchItem(s', d)
  {
    if Snapshot(s, d) {
      hide Handles, MayFall, Snapshot, ClientSnapshot;
      BatchAdvances(s, s', t, d);
    } else {
      assert ClientSnapshot(s', d);
      hide Handles, MayFall, Snapshot, ClientSnapshot;
      ClientMayFall(s', d);
    }
  }

  lemma HandlesEvolves(s: State, s': State, t: Txid)
    requires Handles(s, s', t)
    ensures Evolves(s, s')
  {}

  lemma InvKeyed(s: State)
    requires Inv(s)
    ensures KeysOk(s)
  {}

  lemma TracksStart(s: State, cfg: Config, node: Node, height: BlockHeight)
    ensures Tracks(s, s, cfg, node, [], height)
  {
    EvolvesReflexive(s);
    hide Evolves;
  }

  /** Handling a batch one outcome after the other: the invariant holds on the way, every acceptance meets a waiting
      record, and the final states depend on the outcomes and the first store only. */
  lemma {:induction false} BatchTracks(s0: State, s: State, cfg: Config, node: Node, done: seq<Dispatch>, rest: seq<Dispatch>,
                                       height: BlockHeight, fee: CoordinatedTx -> FeeInfo)
    requires Inv(s) && Tracks(s0, s, cfg, node, done, height) && ConsistentOutcomes(s0, cfg, node, done + rest, height)
    requires Distinct(done + rest)
    requires forall i :: 0 <= i < |rest| ==> IsWaiting(s0, rest[i].tx.txid) && BatchItem(s, rest[i].tx)
    ensures AcceptsWaiting(s, cfg, node, rest, height, fee)
    ensures Inv(HandleAll(s, cfg, node, rest, height, fee))
    ensures Tracks(s0, HandleAll(s, cfg, node, rest, height, fee), cfg, node, done + rest, height)
    decreases |rest|
  {
    hide Inv, Tracks, ConsistentOutcomes, HandleDispatchResult, BatchItem, Handles, Evolves, KeysOk, Accepted, IsWaiting, FailsRoot;
    if rest == [] {
      assert done + rest == done;
    } else {
      var d, all := rest[0], done + rest;
      var next := HandleDispatchResult(s, cfg, node, d, height, fee(d.tx));
      assert done + [d] <= all by { assert rest == [d] + rest[1..]; }
      InvKeyed(s);
      NextWaits(s0, s, cfg, node, done, d, all, height);
      ItemHandles(s, cfg, node, d, height, fee(d.tx));
      HandlesEvolves(s, next, d.tx.txid);
      TracksNext(s0, s, cfg, node, done, d, all, height, fee(d.tx));
      assert done + [d] + rest[1..] == all;
      forall i | 0 <= i < |rest[1..]| ensures IsWaiting(s0, rest[1..][i].tx.txid) && BatchItem(next, rest[1..][i].tx) {
        assert rest[1..][i] == rest[i + 1];
        assert all[|done|] == d && all[|done| + i + 1] == rest[i + 1];
        ItemAdvances(s, next, d.tx.txid, rest[i + 1].tx);
      }
      BatchTracks(s0, next, cfg, node, done + [d], rest[1..], height, fee);
    }
  }

  // ---------------------------------------------------------------- step 4

  function SpeedupOutcomes(s: State, cfg: Config, node: Node, retryReady: bool): seq<Dispatch> {
    DispatchAll(s, cfg, node, SpeedupBatch(s, retryReady))
  }

  /** H3 for step 4. */
  ghost predicate ConsistentNode(s: State, cfg: Config, node: Node, retryReady: bool, height: BlockHeight) {
    ConsistentOutcomes(s, cfg, node, SpeedupOutcomes(s, cfg, node, retryReady), height)
  }

  lemma SpeedupItems(s: State, cfg: Config, node: Node, retryReady: bool)
    requires Inv(s)
    ensures var ds := SpeedupOutcomes(s, cfg, node, retryReady);
      && Distinct(ds)
      && (forall i :: 0 <= i < |ds| ==> ds[i].tx in SpeedupBatch(s, retryReady))
      && (forall i :: 0 <= i < |ds| ==> MayFall(s, ds[i].tx) && Snapshot(s, ds[i].tx) && IsWaiting(s, ds[i].tx.txid))
  {
    assert KeysOk(s) && ListOk(s);
    hide Inv, KeysOk, ListOk, SpeedupBatch, DispatchAll, MayFall, Snapshot;
    BatchDistinct(s, retryReady);
    DispatchAllFacts(s, cfg, node, SpeedupBatch(s, retryReady));
    var ds := SpeedupOutcomes(s, cfg, node, retryReady);
    forall i | 0 <= i < |ds| ensures MayFall(s, ds[i].tx) && Snapshot(s, ds[i].tx) && IsWaiting(s, ds[i].tx.txid) {
      BatchMember(s, retryReady, ds[i].tx);
      BatchIsWaiting(s, retryReady, ds[i].tx);
    }
  }

  lemma BatchIsWaiting(s: State, retryReady: bool, d: CoordinatedTx)
    requires Inv(s) && d in SpeedupBatch(s, retryReady)
    ensures IsWaiting(s, d.txid) && s.txs[d.txid] == d && d.kind.Speedup?
  {
    assert KeysOk(s) && ListOk(s);
    hide Inv;
    assert d in SpeedupRecords(s) && d.state.ToDispatch?;
  }

  /** Step 4 as a whole: it keeps the invariant, and every waiting record ends as the outcomes of the batch say. */
  lemma SpeedupBatchTracks(s: State, cfg: Config, node: Node, retryReady: bool, height: BlockHeight)
    requires Inv(s) && ConsistentNode(s, cfg, node, retryReady, height)
    ensures AcceptsWaiting(s, cfg, node, SpeedupOutcomes(s, cfg, node, retryReady), height, KeepFee)
    ensures Inv(DispatchPendingSpeedups(s, cfg, node, retryReady, height))
    ensures Tracks(s, DispatchPendingSpeedups(s, cfg, node, retryReady, height), cfg, node,
                   SpeedupOutcomes(s, cfg, node, retryReady), height)
  {
    hide Inv, MayFall, Snapshot, ClientSnapshot, AcceptsWaiting, Tracks, ConsistentOutcomes, IsWaiting, DispatchAll, SpeedupBatch;
    hide HandleAll;
    var ds := SpeedupOutcomes(s, cfg, node, retryReady);
    SpeedupItems(s, cfg, node, retryReady);
    TracksStart(s, cfg, node, height);
    assert [] + ds == ds;
    BatchTracks(s, s, cfg, node, [], ds, height, KeepFee);
  }

  lemma DispatchSpeedupsKeepsInv(s: State, cfg: Config, node: Node, retryReady: bool, height: BlockHeight)
    requires Inv(s) && ConsistentNode(s, cfg, node, retryReady, height)
    ensures Inv(DispatchPendingSpeedups(s, cfg, node, retryReady, height))
  {
    hide Inv, ConsistentNode, DispatchPendingSpeedups, Tracks, AcceptsWaiting;
    SpeedupBatchTracks(s, cfg, node, retryReady, height);
  }

  // ---------------------------------------------------------------- step 3

  function ClientOutcomes(s: State, cfg: Config, node: Node, order: seq<Txid>, retryReady: bool, height: BlockHeight):
    seq<Dispatch>
  {
    DispatchAll(s, cfg, node, RetryFilter(ReadyToDispatch(s, order, height), retryReady))
  }

  lemma {:induction false} SendIgnoresCore(s: State, s': State, cfg: Config, node: Node, txs: seq<CoordinatedTx>)
    requires s'.txs == s.txs
    ensures SendResults(s', cfg, node, txs) == SendResults(s, cfg, node, txs)
  {
    if txs != [] {
      SendIgnoresCore(s, s', cfg, node, txs[1..]);
      SendOneIgnoresCore(s, s', node, txs[0]);
      hide SendOne, Malformed;
    }
  }

  lemma SendOneIgnoresCore(s: State, s': State, node: Node, tx: CoordinatedTx)
    requires s'.txs == s.txs
    ensures SendOne(s', node, tx) == SendOne(s, node, tx)
  {
    ParentIgnoresCore(s, s', tx.tx.inputs);
    hide FailedParent;
  }

  lemma {:induction false} ParentIgnoresCore(s: State, s': State, inputs: seq<OutPoint>)
    requires s'.txs == s.txs
    ensures FailedParent(s', inputs) == FailedParent(s, inputs)
  {
    if inputs != [] {
      ParentIgnoresCore(s, s', inputs[1..]);
    }
  }

  lemma ClientItems(s: State, cfg: Config, node: Node, order: seq<Txid>, retryReady: bool, height: BlockHeight)
    requires Inv(s) && NoDup(order)
    ensures var ds := ClientOutcomes(s, cfg, node, order, retryReady, height);
      && Distinct(ds)
      && (forall i :: 0 <= i < |ds| ==> ClientSnapshot(s, ds[i].tx) && IsWaiting(s, ds[i].tx.txid))
  {
    assert KeysOk(s);
    hide Inv, KeysOk, DispatchAll;
    var ready := ReadyToDispatch(s, order, height);
    ReadyDistinct(s, order, height);
    hide ReadyToDispatch;
    RetryFilterDistinct(ready, retryReady);
    DispatchAllFacts(s, cfg, node, RetryFilter(ready, retryReady));
    var ds := ClientOutcomes(s, cfg, node, order, retryReady, height);
    forall i | 0 <= i < |ds| ensures ClientSnapshot(s, ds[i].tx) && IsWaiting(s, ds[i].tx.txid) {
      assert ds[i].tx in RetryFilter(ready, retryReady);
      assert ds[i].tx in ready;
    }
  }

  /** A client transaction is reached from nothing: the cascade takes speedups only. */
  lemma ClientsAreConsistent(s: State, cfg: Config, node: Node, ds: seq<Dispatch>, height: BlockHeight)
    requires forall i :: 0 <= i < |ds| ==> ClientSnapshot(s, ds[i].tx)
    ensures ConsistentOutcomes(s, cfg, node, ds, height)
  {
    hide FailsRoot, Accepted, Reaches;
    forall i, j | 0 <= i < |ds| && 0 <= j < |ds| ensures !Reaches(s, ds[j].tx.txid, ds[i].tx.txid) {
      ReachedPends(s, ds[j].tx.txid, ds[i].tx.txid);
      assert ClientSnapshot(s, ds[i].tx);
    }
  }

  lemma NotedTracks(s: State, noted: State, s': State, cfg: Config, node: Node, ds: seq<Dispatch>, height: BlockHeight)
    requires noted.txs == s.txs && SameCore(s, noted) && Tracks(noted, s', cfg, node, ds, height)
    ensures Tracks(s, s', cfg, node, ds, height)
  {
    SameCoreFrame(s, noted);
    hide SameCore;
    assert Evolves(s, noted);
    EvolvesTransitive(s, noted, s');
    forall e, root ensures Reaches(noted, root, e) == Reaches(s, root, e) {
      CoreReaches(s, noted, root, e);
    }
    hide Evolves, Reaches, FailsRoot, Taken;
    forall e ensures Felled(noted, cfg, node, ds, height, e) == Felled(s, cfg, node, ds, height, e) {}
  }

  lemma CoreReaches(s: State, noted: State, root: Txid, e: Txid)
    requires noted.txs == s.txs && SameCore(s, noted)
    ensures Reaches(noted, root, e) == Reaches(s, root, e)
  {
    SameCoreFrame(s, noted);
    assert SameCore(noted, s);
    SameCoreFrame(noted, s);
    hide Evolves, SameCore, ReachesIn;
    if n: nat :| ReachesIn(noted, root, e, n) {
      ReachedBefore(s, noted, root, e, n);
    }
    if n: nat :| ReachesIn(s, root, e, n) {
      ReachedBefore(noted, s, root, e, n);
    }
  }

  /** Step 3 as a whole: every waiting record, client or speedup, ends as the outcomes of the batch say. */
  lemma ClientBatchTracks(s: State, cfg: Config, node: Node, order: seq<Txid>, retryReady: bool, estimate: Option<nat>,
                          height: BlockHeight)
    requires Inv(s) && NoDup(order)
    ensures Tracks(s, DispatchPending(s, cfg, node, order, retryReady, estimate, height), cfg, node,
                   ClientOutcomes(s, cfg, node, order, retryReady, height), height)
  {
    hide Inv, NoDup, MayFall, Snapshot, Tracks, ConsistentOutcomes, IsWaiting, SendResults, FatalResults, HandleAll, SameCore;
    hide ReadyToDispatch, Fees.NetworkFeeRate, Fees.ComputeFeeForTx, NoteRate, ClientSnapshot;
    var ready := ReadyToDispatch(s, order, height);
    var ds := ClientOutcomes(s, cfg, node, order, retryReady, height);
    ClientItems(s, cfg, node, order, retryReady, height);
    TracksStart(s, cfg, node, height);
    if ready != [] {
      var (rate, news) := Fees.NetworkFeeRate(cfg, estimate);
      var noted := NoteRate(s, news);
      var fee := (tx: CoordinatedTx) => Fees.ComputeFeeForTx(tx.tx, rate);
      NoteRateKeepsInv(s, news);
      NotedCore(s, news);
      SendIgnoresCore(s, noted, cfg, node, RetryFilter(ready, retryReady));
      forall i | 0 <= i < |ds| ensures BatchItem(noted, ds[i].tx) && IsWaiting(noted, ds[i].tx.txid) && ClientSnapshot(noted, ds[i].tx) {
        NotedItem(s, noted, ds[i].tx);
      }
      ClientsAreConsistent(noted, cfg, node, ds, height);
      TracksStart(noted, cfg, node, height);
      assert [] + ds == ds;
      BatchTracks(noted, noted, cfg, node, [], ds, height, fee);
      NotedTracks(s, noted, HandleAll(noted, cfg, node, ds, height, fee), cfg, node, ds, height);
    } else {
      assert ds == [] by { NoOutcomes(s, cfg, node); }
    }
  }

  lemma NoOutcomes(s: State, cfg: Config, node: Node)
    ensures DispatchAll(s, cfg, node, RetryFilter([], true)) == [] && DispatchAll(s, cfg, node, RetryFilter([], false)) == []
  {}

  lemma NotedCore(s: State, news: Option<News>)
    ensures SameCore(s, NoteRate(s, news)) && NoteRate(s, news).txs == s.txs
  {}

  lemma NotedItem(s: State, noted: State, d: CoordinatedTx)
    requires noted.txs == s.txs && ClientSnapshot(s, d)
    ensures BatchItem(noted, d) && IsWaiting(noted, d.txid) && ClientSnapshot(noted, d)
  {
    ClientMayFall(noted, d);
  }
}

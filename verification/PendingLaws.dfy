/** Who is pending after a dispatch step, cause by cause, whatever the order in which its outcomes settle one another's
    dependents (src/engines/common.rs:127-160, 254-471). */
module PendingLaws {
  import opened Types
  import opened Oracles
  import Fees
  import opened States
  import opened Failures
  import opened Dispatching
  import opened Engines
  import opened Invariants
  import opened Evolution
  import opened CascadeLaws
  import opened DispatchLaws
  import opened OutcomeLaws
  import opened SurvivorLaws
  import opened Runs
  import opened EventOutcomes
  import opened LifecycleLaws
  import opened SendLaws

  /** `r` is a CPFP and covers `p`. */
  predicate Covers(r: CoordinatedTx, p: Txid) {
    r.kind.Speedup? && r.kind.speedup.CPFP? && p in r.kind.speedup.parents
  }

  /** A CPFP built for pending parents, not a boost of another speedup. */
  predicate FirstCpfp(r: CoordinatedTx) {
    r.kind.Speedup? && r.kind.speedup.CPFP? && r.kind.speedup.context.parentVsizes != []
  }

  /** `p` feeds an input of `r` that is not its funding, and has not settled Failed. */
  predicate FedBy(s: State, r: CoordinatedTx, p: Txid) {
    && (exists i :: 0 <= i < |r.tx.inputs| && r.tx.inputs[i].txid == p && r.tx.inputs[i] !in Ops(r.FundingInputs()))
    && !(p in s.txs && s.txs[p].state.Failed?)
  }

  /** The outcome fails its transaction and queues `p` again for it: because its funding is gone and it covers `p`, or, for a
      first CPFP with a dead parent or another input gone, because `p` feeds it and lives. A malformed transaction and one whose
      retries are spent queue nothing. */
  ghost predicate QueuedByOwn(s: State, cfg: Config, node: Node, d: Dispatch, height: BlockHeight, p: Txid) {
    && FailsRoot(cfg, node, d, height)
    && if d.outcome.SendError? && FundingGone(node, d.tx) then Covers(d.tx, p)
       else (d.outcome.ParentFailed? || (d.outcome.SendError? && ExternalGone(node, d.tx))) && FirstCpfp(d.tx) && FedBy(s, d.tx, p)
  }

  /** Failing outcome `j` reaches the waiting speedup `v` before any failing outcome of `v` itself. */
  ghost predicate VictimAt(s: State, cfg: Config, node: Node, ds: seq<Dispatch>, height: BlockHeight, v: Txid, j: int) {
    && 0 <= j < |ds| && FailsRoot(cfg, node, ds[j], height) && Reaches(s, ds[j].tx.txid, v)
    && forall i :: 0 <= i <= j && FailsRoot(cfg, node, ds[i], height) ==> ds[i].tx.txid != v
  }

  /** `v` falls with another transaction of the batch. */
  ghost predicate IsVictim(s: State, cfg: Config, node: Node, ds: seq<Dispatch>, height: BlockHeight, v: Txid) {
    exists j :: VictimAt(s, cfg, node, ds, height, v, j)
  }

  ghost predicate CoveredByFallen(s: State, cfg: Config, node: Node, ds: seq<Dispatch>, height: BlockHeight, p: Txid) {
    exists v :: v in s.txs && IsVictim(s, cfg, node, ds, height, v) && Covers(s.txs[v], p)
  }

  ghost predicate QueuedByOwnIn(s: State, cfg: Config, node: Node, ds: seq<Dispatch>, height: BlockHeight, p: Txid) {
    exists j :: 0 <= j < |ds| && QueuedByOwn(s, cfg, node, ds[j], height, p)
  }

  /** The parent `p` is queued by the outcomes `ds`: for a failing CPFP itself, or for one that falls with another transaction. */
  ghost predicate Queued(s: State, cfg: Config, node: Node, ds: seq<Dispatch>, height: BlockHeight, p: Txid) {
    Needs(s, p) && (QueuedByOwnIn(s, cfg, node, ds, height, p) || CoveredByFallen(s, cfg, node, ds, height, p))
  }

  // ---------------------------------------------------------------- one outcome

  lemma CoversIs(r: CoordinatedTx, p: Txid)
    ensures Covers(r, p) <==> p in r.Parents()
    ensures FirstCpfp(r) ==> r.IsFirstCpfp()
    ensures r.IsFirstCpfp() ==> FirstCpfp(r)
  {}

  lemma FedByIs(s: State, r: CoordinatedTx, p: Txid)
    ensures FedBy(s, r, p) <==> Survives(s, r, p)
  {
    var free := r.NonFundingInputs();
    if i :| 0 <= i < |r.tx.inputs| && r.tx.inputs[i].txid == p && r.tx.inputs[i] !in Ops(r.FundingInputs()) {
      assert r.tx.inputs[i] in free;
      var k :| 0 <= k < |free| && free[k] == r.tx.inputs[i];
    }
    if k :| 0 <= k < |free| && free[k].txid == p {
      assert free[k] in free;
      var i :| 0 <= i < |r.tx.inputs| && r.tx.inputs[i] == free[k];
    }
  }

  lemma ChildPsp(s: State, tx: CoordinatedTx, height: BlockHeight, p: Txid)
    requires KeysOk(s)
    ensures var s' := SettleFailedChild(s, tx, height);
      && PrependedTo(s.psp, s'.psp)
      && (p in s'.psp <==>
            p in s.psp || (Needs(s, p) && ((FirstCpfp(tx) && FedBy(s, tx, p)) || CoveredByVictim(s, tx.txid, p))))
  {
    hide KeysOk, FailAndCascade, RebuildSurvivors, CoveredByVictim, PrependedTo, FedBy, Survives;
    CoversIs(tx, p);
    FedByIs(s, tx, p);
    if tx.IsFirstCpfp() {
      SurvivorsQueued(s, tx, height, p);
    } else {
      CascadePsp(s, tx, height, false, p);
    }
  }

  lemma QuietPsp(s: State, cfg: Config, node: Node, d: Dispatch, height: BlockHeight, fee: FeeInfo)
    requires !FailsRoot(cfg, node, d, height)
    ensures HandleDispatchResult(s, cfg, node, d, height, fee).psp == s.psp
  {
    hide HandleDispatchResult, FailsRoot, Accepted, FundingGone, ExternalGone, FailAndCascade, SettleFailedChild;
    HandledAs(s, cfg, node, d, height, fee);
  }

  /** Exactly who is pending after one outcome. */
  lemma OutcomePsp(s: State, cfg: Config, node: Node, d: Dispatch, height: BlockHeight, fee: FeeInfo, p: Txid)
    requires KeysOk(s)
    ensures var s' := HandleDispatchResult(s, cfg, node, d, height, fee);
      && PrependedTo(s.psp, s'.psp)
      && (p in s'.psp <==>
            || p in s.psp
            || (Needs(s, p) && (QueuedByOwn(s, cfg, node, d, height, p)
                                || (FailsRoot(cfg, node, d, height) && CoveredByVictim(s, d.tx.txid, p)))))
  {
    hide KeysOk, HandleDispatchResult, FailsRoot, Accepted, FundingGone, ExternalGone, FailAndCascade, SettleFailedChild, Covers;
    hide FirstCpfp, FedBy, CoveredByVictim, Needs;
    if FailsRoot(cfg, node, d, height) {
      HandledAs(s, cfg, node, d, height, fee);
      AcceptedDoesNotFail(cfg, node, d, height);
      CoversIs(d.tx, p);
      CascadePsp(s, d.tx, height, true, p);
      CascadePsp(s, d.tx, height, false, p);
      ChildPsp(s, d.tx, height, p);
    } else {
      QuietPsp(s, cfg, node, d, height, fee);
      SamePrepended(s.psp);
    }
  }

  lemma SamePrepended(psp: seq<Txid>)
    ensures PrependedTo(psp, psp)
  {}

  // ---------------------------------------------------------------- one outcome after the others

  lemma OwnGrows(s: State, cfg: Config, node: Node, done: seq<Dispatch>, d: Dispatch, height: BlockHeight, p: Txid)
    ensures QueuedByOwnIn(s, cfg, node, done + [d], height, p) <==>
              QueuedByOwnIn(s, cfg, node, done, height, p) || QueuedByOwn(s, cfg, node, d, height, p)
  {
    hide QueuedByOwn;
    var more := done + [d];
    if j :| 0 <= j < |done| && QueuedByOwn(s, cfg, node, done[j], height, p) {
      assert more[j] == done[j];
    }
    if QueuedByOwn(s, cfg, node, d, height, p) {
      assert more[|done|] == d;
    }
  }

  ghost predicate OwnFailed(cfg: Config, node: Node, ds: seq<Dispatch>, height: BlockHeight, v: Txid) {
    exists i :: 0 <= i < |ds| && FailsRoot(cfg, node, ds[i], height) && ds[i].tx.txid == v
  }

  lemma VictimGrows(s: State, cfg: Config, node: Node, done: seq<Dispatch>, d: Dispatch, height: BlockHeight, v: Txid)
    ensures IsVictim(s, cfg, node, done + [d], height, v) <==>
              || IsVictim(s, cfg, node, done, height, v)
              || (FailsRoot(cfg, node, d, height) && Reaches(s, d.tx.txid, v) && d.tx.txid != v
                  && !OwnFailed(cfg, node, done, height, v))
  {
    hide FailsRoot, Reaches;
    var more := done + [d];
    assert forall i :: 0 <= i < |done| ==> more[i] == done[i];
    if j :| VictimAt(s, cfg, node, done, height, v, j) {
      assert VictimAt(s, cfg, node, more, height, v, j);
    }
    if j :| VictimAt(s, cfg, node, more, height, v, j) {
      if j < |done| {
        assert VictimAt(s, cfg, node, done, height, v, j);
      } else {
        assert more[j] == d;
      }
    }
    if FailsRoot(cfg, node, d, height) && Reaches(s, d.tx.txid, v) && d.tx.txid != v && !OwnFailed(cfg, node, done, height, v) {
      assert VictimAt(s, cfg, node, more, height, v, |done|);
    }
  }

  /** Reached by an earlier failing outcome and by none of its own: a victim already. */
  lemma FelledIsVictim(s: State, cfg: Config, node: Node, done: seq<Dispatch>, height: BlockHeight, v: Txid)
    requires Felled(s, cfg, node, done, height, v) && !OwnFailed(cfg, node, done, height, v)
    ensures IsVictim(s, cfg, node, done, height, v)
  {
    hide FailsRoot, Reaches;
    var j :| 0 <= j < |done| && FailsRoot(cfg, node, done[j], height) && (done[j].tx.txid == v || Reaches(s, done[j].tx.txid, v));
    assert VictimAt(s, cfg, node, done, height, v, j);
  }

  lemma OwnFailedIsFelled(s: State, cfg: Config, node: Node, done: seq<Dispatch>, height: BlockHeight, v: Txid)
    ensures OwnFailed(cfg, node, done, height, v) ==> Felled(s, cfg, node, done, height, v)
  {
    hide FailsRoot, Reaches;
  }

  lemma TakenIsNotReached(s: State, cfg: Config, node: Node, done: seq<Dispatch>, d: Dispatch, all: seq<Dispatch>,
                          height: BlockHeight, v: Txid)
    requires ConsistentOutcomes(s, cfg, node, all, height) && done + [d] <= all && FailsRoot(cfg, node, d, height)
    ensures Taken(node, done, v) ==> !Reaches(s, d.tx.txid, v)
  {
    hide FailsRoot, Accepted, Reaches;
    assert all[|done|] == (done + [d])[|done|] == d;
    if i :| 0 <= i < |done| && Accepted(node, done[i]) && done[i].tx.txid == v {
      assert all[i] == (done + [d])[i] == done[i];
    }
  }

  /** A speedup that falls now, seen from the store the batch started from. */
  lemma FallsNow(s0: State, s: State, cfg: Config, node: Node, done: seq<Dispatch>, d: Dispatch, all: seq<Dispatch>,
                 height: BlockHeight, v: Txid)
    requires Tracks(s0, s, cfg, node, done, height) && ConsistentOutcomes(s0, cfg, node, all, height) && done + [d] <= all
    requires FailsRoot(cfg, node, d, height) && v != d.tx.txid && v in s0.txs
    ensures v in Pending(s) && Reaches(s, d.tx.txid, v) ==>
              Reaches(s0, d.tx.txid, v) && !OwnFailed(cfg, node, done, height, v)
    ensures Reaches(s0, d.tx.txid, v) && !OwnFailed(cfg, node, done, height, v) ==>
              IsVictim(s0, cfg, node, done, height, v) || (v in Pending(s) && Reaches(s, d.tx.txid, v))
  {
    hide FailsRoot, Accepted, Reaches, ConsistentOutcomes, IsVictim, OwnFailed, Felled, Taken, Evolves;
    assert d in all && done <= all by { InBatch(done, d, all); }
    TakenIsNotReached(s0, cfg, node, done, d, all, height, v);
    OwnFailedIsFelled(s0, cfg, node, done, height, v);
    if v in Pending(s) && Reaches(s, d.tx.txid, v) {
      PendingWaits(s, v);
      SameReach(s0, s, cfg, node, done, all, height, d, v);
    }
    if Reaches(s0, d.tx.txid, v) && !OwnFailed(cfg, node, done, height, v) {
      ReachedPends(s0, d.tx.txid, v);
      PendingWaits(s0, v);
      if Felled(s0, cfg, node, done, height, v) {
        FelledIsVictim(s0, cfg, node, done, height, v);
      } else {
        assert IsWaiting(s, v);
        SameReach(s0, s, cfg, node, done, all, height, d, v);
        ReachedPends(s, d.tx.txid, v);
      }
    }
  }

  lemma InBatch(done: seq<Dispatch>, d: Dispatch, all: seq<Dispatch>)
    requires done + [d] <= all
    ensures d in all && done <= all
  {
    assert all[|done|] == (done + [d])[|done|];
    assert done <= done + [d];
  }

  lemma CoversStays(s0: State, s: State, v: Txid, p: Txid)
    requires Evolves(s0, s) && v in s0.txs
    ensures v in s.txs && (Covers(s.txs[v], p) <==> Covers(s0.txs[v], p))
  {
    assert SameShape(s0.txs[v], s.txs[v]);
    CoversIs(s0.txs[v], p);
    CoversIs(s.txs[v], p);
  }

  /** What the parents of this outcome's victims are, seen from the store the batch started from. */
  lemma FallenGrows(s0: State, s: State, cfg: Config, node: Node, done: seq<Dispatch>, d: Dispatch, all: seq<Dispatch>,
                    height: BlockHeight, p: Txid)
    requires Tracks(s0, s, cfg, node, done, height) && ConsistentOutcomes(s0, cfg, node, all, height) && done + [d] <= all
    ensures CoveredByFallen(s0, cfg, node, done + [d], height, p) <==>
              || CoveredByFallen(s0, cfg, node, done, height, p)
              || (FailsRoot(cfg, node, d, height) && CoveredByVictim(s, d.tx.txid, p))
  {
    hide FailsRoot, Reaches, ConsistentOutcomes, Tracks, IsVictim, OwnFailed, Pending, Covers;
    TracksEvolves(s0, s, cfg, node, done, height);
    if v :| v in s0.txs && IsVictim(s0, cfg, node, done, height, v) && Covers(s0.txs[v], p) {
      VictimGrows(s0, cfg, node, done, d, height, v);
      assert CoveredByFallen(s0, cfg, node, done + [d], height, p);
    }
    if FailsRoot(cfg, node, d, height) && CoveredByVictim(s, d.tx.txid, p) {
      PendingStored(s);
      var v :| v != d.tx.txid && v in Pending(s) && Reaches(s, d.tx.txid, v) && p in s.txs[v].Parents();
      assert v in s0.txs by { EvolvesKeys(s0, s); }
      FallsNow(s0, s, cfg, node, done, d, all, height, v);
      VictimGrows(s0, cfg, node, done, d, height, v);
      CoversStays(s0, s, v, p);
      CoversIs(s.txs[v], p);
    }
    if v :| v in s0.txs && IsVictim(s0, cfg, node, done + [d], height, v) && Covers(s0.txs[v], p) {
      VictimGrows(s0, cfg, node, done, d, height, v);
      if !IsVictim(s0, cfg, node, done, height, v) {
        FallsNow(s0, s, cfg, node, done, d, all, height, v);
        CoversStays(s0, s, v, p);
        CoversIs(s.txs[v], p);
        PendingStored(s);
        assert CoveredByVictim(s, d.tx.txid, p);
      }
    }
  }

  // ---------------------------------------------------------------- the whole batch

  /** Client records are as they were: what a batch of speedups leaves of them. */
  ghost predicate ClientsSame(s0: State, s: State) {
    forall x :: x in s0.txs && !s0.txs[x].kind.Speedup? ==> x in s.txs && s.txs[x] == s0.txs[x]
  }

  lemma OwnCauseStays(s0: State, s: State, cfg: Config, node: Node, d: Dispatch, height: BlockHeight, p: Txid)
    requires Needs(s0, p) && (d.tx.kind.Speedup? ==> ClientsSame(s0, s))
    ensures QueuedByOwn(s, cfg, node, d, height, p) <==> QueuedByOwn(s0, cfg, node, d, height, p)
  {
    hide FailsRoot, FundingGone, ExternalGone, Covers;
  }

  lemma ClientsStay(s0: State, s: State, s': State, d: CoordinatedTx)
    requires ClientsSame(s0, s) && Handles(s, s', d.txid) && IsSpeedup(s, d.txid)
    ensures ClientsSame(s0, s')
  {
    hide SameShape;
  }

  /** `s` is the store after the outcomes `done` over `s0`, as far as `p` is concerned. */
  ghost predicate PendingTracks(s0: State, s: State, cfg: Config, node: Node, done: seq<Dispatch>, height: BlockHeight, p: Txid) {
    && PrependedTo(s0.psp, s.psp)
    && (p in s.psp <==> p in s0.psp || Queued(s0, cfg, node, done, height, p))
  }

  lemma PendingNext(s0: State, s: State, cfg: Config, node: Node, done: seq<Dispatch>, d: Dispatch, all: seq<Dispatch>,
                    height: BlockHeight, fee: FeeInfo, p: Txid)
    requires Tracks(s0, s, cfg, node, done, height) && ConsistentOutcomes(s0, cfg, node, all, height) && KeysOk(s)
    requires done + [d] <= all && (d.tx.kind.Speedup? ==> ClientsSame(s0, s))
    requires PendingTracks(s0, s, cfg, node, done, height, p)
    ensures PendingTracks(s0, HandleDispatchResult(s, cfg, node, d, height, fee), cfg, node, done + [d], height, p)
  {
    hide KeysOk, Tracks, ConsistentOutcomes, HandleDispatchResult, FailsRoot, QueuedByOwn, CoveredByVictim, CoveredByFallen;
    hide QueuedByOwnIn, PrependedTo, Needs, ClientsSame, Evolves;
    OutcomePsp(s, cfg, node, d, height, fee, p);
    PrependedTransitive(s0.psp, s.psp, HandleDispatchResult(s, cfg, node, d, height, fee).psp);
    TracksEvolves(s0, s, cfg, node, done, height);
    EvolvedNeeds(s0, s);
    OwnGrows(s0, cfg, node, done, d, height, p);
    FallenGrows(s0, s, cfg, node, done, d, all, height, p);
    if Needs(s0, p) {
      OwnCauseStays(s0, s, cfg, node, d, height, p);
    }
  }

  lemma ItemIsSpeedup(s: State, d: CoordinatedTx)
    requires BatchItem(s, d) && d.kind.Speedup?
    ensures IsSpeedup(s, d.txid)
  {}

  lemma {:induction false} BatchPending(s0: State, s: State, cfg: Config, node: Node, done: seq<Dispatch>, rest: seq<Dispatch>,
                                        height: BlockHeight, fee: CoordinatedTx -> FeeInfo, p: Txid)
    requires Inv(s) && Tracks(s0, s, cfg, node, done, height) && ConsistentOutcomes(s0, cfg, node, done + rest, height)
    requires Distinct(done + rest)
    requires forall i :: 0 <= i < |rest| ==> IsWaiting(s0, rest[i].tx.txid) && BatchItem(s, rest[i].tx)
    requires (forall i :: 0 <= i < |rest| ==> !rest[i].tx.kind.Speedup?)
             || (ClientsSame(s0, s) && forall i :: 0 <= i < |rest| ==> rest[i].tx.kind.Speedup?)
    requires PendingTracks(s0, s, cfg, node, done, height, p)
    ensures PendingTracks(s0, HandleAll(s, cfg, node, rest, height, fee), cfg, node, done + rest, height, p)
    decreases |rest|
  {
    hide Inv, Tracks, ConsistentOutcomes, HandleDispatchResult, BatchItem, Handles, Evolves, KeysOk, Accepted, IsWaiting, FailsRoot;
    hide PendingTracks, ClientsSame;
    if rest == [] {
      assert done + rest == done;
    } else {
      var d, all := rest[0], done + rest;
      var next := HandleDispatchResult(s, cfg, node, d, height, fee(d.tx));
      assert done + [d] <= all by { assert rest == [d] + rest[1..]; }
      InvKeyed(s);
      NextWaits(s0, s, cfg, node, done, d, all, height);
      ItemHandles(s, cfg, node, d, height, fee(d.tx));
      HandlesEvolves(s, next, d.tx.txid);
      TracksNext(s0, s, cfg, node, done, d, all, height, fee(d.tx));
      assert done + [d] + rest[1..] == all;
      forall i | 0 <= i < |rest[1..]| ensures IsWaiting(s0, rest[1..][i].tx.txid) && BatchItem(next, rest[1..][i].tx) {
        assert rest[1..][i] == rest[i + 1];
        assert all[|done|] == d && all[|done| + i + 1] == rest[i + 1];
        ItemAdvances(s, next, d.tx.txid, rest[i + 1].tx);
      }
      if d.tx.kind.Speedup? {
        ItemIsSpeedup(s, d.tx);
        ClientsStay(s0, s, next, d.tx);
      }
      PendingNext(s0, s, cfg, node, done, d, all, height, fee(d.tx), p);
      BatchPending(s0, next, cfg, node, done + [d], rest[1..], height, fee, p);
    }
  }

  lemma PendingStart(s: State, cfg: Config, node: Node, height: BlockHeight, p: Txid)
    ensures PendingTracks(s, s, cfg, node, [], height, p)
    ensures ClientsSame(s, s)
  {}

  // ---------------------------------------------------------------- steps 3 and 4

  lemma SpeedupsQueue(s: State, cfg: Config, node: Node, retryReady: bool, height: BlockHeight, p: Txid)
    requires Inv(s) && ConsistentNode(s, cfg, node, retryReady, height)
    ensures PendingTracks(s, DispatchPendingSpeedups(s, cfg, node, retryReady, height), cfg, node,
                          SpeedupOutcomes(s, cfg, node, retryReady), height, p)
  {
    hide Inv, MayFall, Snapshot, ClientSnapshot, Tracks, ConsistentOutcomes, IsWaiting, DispatchAll, SpeedupBatch, HandleAll;
    hide PendingTracks, ClientsSame;
    var ds := SpeedupOutcomes(s, cfg, node, retryReady);
    SpeedupItems(s, cfg, node, retryReady);
    TracksStart(s, cfg, node, height);
    PendingStart(s, cfg, node, height, p);
    forall i | 0 <= i < |ds| ensures ds[i].tx.kind.Speedup? {
      BatchIsWaiting(s, retryReady, ds[i].tx);
    }
    assert [] + ds == ds;
    BatchPending(s, s, cfg, node, [], ds, height, KeepFee, p);
  }

  lemma NotedQueued(s: State, noted: State, s': State, cfg: Config, node: Node, ds: seq<Dispatch>, height: BlockHeight, p: Txid)
    requires noted.txs == s.txs && noted.psp == s.psp && SameCore(s, noted) && PendingTracks(noted, s', cfg, node, ds, height, p)
    ensures PendingTracks(s, s', cfg, node, ds, height, p)
  {
    forall root, v ensures Reaches(noted, root, v) == Reaches(s, root, v) {
      CoreReaches(s, noted, root, v);
    }
    hide Reaches, FailsRoot, SameCore, Covers, FirstCpfp, FundingGone, ExternalGone, PrependedTo;
    forall v ensures IsVictim(noted, cfg, node, ds, height, v) == IsVictim(s, cfg, node, ds, height, v) {
      assert forall j :: VictimAt(noted, cfg, node, ds, height, v, j) == VictimAt(s, cfg, node, ds, height, v, j);
    }
    hide IsVictim;
    assert CoveredByFallen(noted, cfg, node, ds, height, p) == CoveredByFallen(s, cfg, node, ds, height, p);
    assert forall d :: QueuedByOwn(noted, cfg, node, d, height, p) == QueuedByOwn(s, cfg, node, d, height, p);
  }

  lemma ClientsQueue(s: State, cfg: Config, node: Node, order: seq<Txid>, retryReady: bool, estimate: Option<nat>,
                     height: BlockHeight, p: Txid)
    requires Inv(s) && NoDup(order)
    ensures PendingTracks(s, DispatchPending(s, cfg, node, order, retryReady, estimate, height), cfg, node,
                          ClientOutcomes(s, cfg, node, order, retryReady, height), height, p)
  {
    hide Inv, NoDup, MayFall, Snapshot, Tracks, ConsistentOutcomes, IsWaiting, SendResults, FatalResults, HandleAll, SameCore;
    hide ReadyToDispatch, Fees.NetworkFeeRate, Fees.ComputeFeeForTx, NoteRate, ClientSnapshot, PendingTracks, ClientsSame;
    var ready := ReadyToDispatch(s, order, height);
    var ds := ClientOutcomes(s, cfg, node, order, retryReady, height);
    ClientItems(s, cfg, node, order, retryReady, height);
    if ready != [] {
      var (rate, news) := Fees.NetworkFeeRate(cfg, estimate);
      var noted := NoteRate(s, news);
      var fee := (tx: CoordinatedTx) => Fees.ComputeFeeForTx(tx.tx, rate);
      NoteRateKeepsInv(s, news);
      NotedCore(s, news);
      NotedPsp(s, news);
      SendIgnoresCore(s, noted, cfg, node, RetryFilter(ready, retryReady));
      forall i | 0 <= i < |ds|
        ensures BatchItem(noted, ds[i].tx) && IsWaiting(noted, ds[i].tx.txid) && ClientSnapshot(noted, ds[i].tx)
        ensures !ds[i].tx.kind.Speedup?
      {
        NotedItem(s, noted, ds[i].tx);
        SnapshotIsClient(noted, ds[i].tx);
      }
      ClientsAreConsistent(noted, cfg, node, ds, height);
      TracksStart(noted, cfg, node, height);
      PendingStart(noted, cfg, node, height, p);
      assert [] + ds == ds;
      BatchPending(noted, noted, cfg, node, [], ds, height, fee, p);
      NotedQueued(s, noted, HandleAll(noted, cfg, node, ds, height, fee), cfg, node, ds, height, p);
    } else {
      NoOutcomes(s, cfg, node);
      PendingStart(s, cfg, node, height, p);
    }
  }

  lemma NotedPsp(s: State, news: Option<News>)
    ensures NoteRate(s, news).psp == s.psp
  {}

  lemma SnapshotIsClient(s: State, d: CoordinatedTx)
    requires ClientSnapshot(s, d)
    ensures !d.kind.Speedup?
  {}

  /** Exactly who is pending after a dispatch step: who was, in the old order at the end of the list, and every NeedsSpeedup
      record that a failing CPFP of the batch, or a CPFP that falls with one, gives back. */
  lemma PendingAfterDispatch(s: State, cfg: Config, e: Event, p: Txid)
    requires Inv(s) && cfg.Valid() && Admissible(s, cfg, e) && IsDispatch(e)
    ensures var s' := Step(s, cfg, e);
      && PrependedTo(s.psp, s'.psp)
      && NoDup(s'.psp)
      && (p in s'.psp <==> p in s.psp || Queued(s, cfg, e.node, Outcomes(s, cfg, e), e.height, p))
  {
    StepKeepsInv(s, cfg, e);
    PendingNoDup(Step(s, cfg, e));
    hide Inv, NoDup, ConsistentNode, ClientOutcomes, SpeedupOutcomes, DispatchPending, DispatchPendingSpeedups, Queued, PrependedTo;
    match e
    case DispatchClientsEvent(node, order, ready, estimate, height) =>
      ClientsQueue(s, cfg, node, order, ready, estimate, height, p);
    case DispatchSpeedupsEvent(node, ready, height) => SpeedupsQueue(s, cfg, node, ready, height, p);
  }

  /** A listed speedup whose broadcast fails, that the node does not know, with a funding input gone and no guard at this height,
      gives back every parent it covers. */
  lemma FundingGoneRequeues(s: State, cfg: Config, e: Event, c: Txid, p: Txid)
    requires Inv(s) && cfg.Valid() && Admissible(s, cfg, e) && e.DispatchSpeedupsEvent?
    requires Selected(s, e, c) && Found(s, cfg, e.node, s.txs[c], SendError) && e.node.confirmations(c).None?
    requires FundingGone(e.node, s.txs[c]) && !Guarded(s.txs[c], e.height)
    requires Covers(s.txs[c], p) && Needs(s, p)
    ensures p in Step(s, cfg, e).psp
  {
    InvKeyed(s);
    SelectedStored(s, e, c);
    hide Inv, KeysOk, Admissible, Step, Outcomes, FundingGone, ExternalGone, Covers, PrependedTo, Found, Selected;
    PendingAfterDispatch(s, cfg, e, p);
    var ds, d := Outcomes(s, cfg, e), Dispatch(s.txs[c], SendError);
    OutcomesAre(s, cfg, e, d);
    var j :| 0 <= j < |ds| && ds[j] == d;
    assert QueuedByOwn(s, cfg, e.node, ds[j], e.height, p);
  }
}

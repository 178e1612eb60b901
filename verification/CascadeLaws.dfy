/** The failure cascade (src/engines/common.rs:318-356): it is a replay of single settlements, settles
    exactly the waiting closure of its root, keeps the invariant, and is idempotent. */
module CascadeLaws {
  import opened Types
  import opened States
  import opened Funding
  import opened Failures
  import opened Invariants
  import opened Evolution
  import opened FailureLaws

  // ---------------------------------------------------------------- the cascade as a replay

  datatype Fall = Fall(tx: CoordinatedTx, fundingMissing: bool)

  function Replay(s: State, falls: seq<Fall>, height: BlockHeight): State
    decreases |falls|
  {
    if falls == [] then s
    else Replay(SettleFailedDispatch(s, falls[0].tx, height, falls[0].fundingMissing), falls[1..], height)
  }

  /** The settlements a cascade performs, in order. */
  function Trace(s: State, tx: CoordinatedTx, height: BlockHeight, fundingMissing: bool): seq<Fall>
    decreases |Pending(s)|, if tx.txid in Pending(s) then 0 else 2, 0
  {
    SettleShrinksPending(s, tx, height, fundingMissing);
    var settled := SettleFailedDispatch(s, tx, height, fundingMissing);
    SubsetSize(Pending(settled), Pending(s));
    [Fall(tx, fundingMissing)] + TraceOver(settled, Victims(settled, SpeedupRecords(settled), tx.txid), height)
  }

  function TraceOver(s: State, ds: seq<CoordinatedTx>, height: BlockHeight): seq<Fall>
    decreases |Pending(s)|, if AllPending(s, ds) then 1 else 3, |ds|
  {
    if ds == [] then []
    else
      var next := FailAndCascade(s, ds[0], height, true);
      SubsetSize(Pending(next), Pending(s));
      Trace(s, ds[0], height, true) + TraceOver(next, ds[1..], height)
  }

  lemma {:induction false} ReplayConcat(s: State, a: seq<Fall>, b: seq<Fall>, height: BlockHeight)
    ensures Replay(s, a + b, height) == Replay(Replay(s, a, height), b, height)
    decreases |a|
  {
    if a == [] {
      assert a + b == b;
    } else {
      assert (a + b)[1..] == a[1..] + b;
      ReplayConcat(SettleFailedDispatch(s, a[0].tx, height, a[0].fundingMissing), a[1..], b, height);
    }
  }

  lemma {:induction false} CascadeIsReplay(s: State, tx: CoordinatedTx, height: BlockHeight, fundingMissing: bool)
    ensures FailAndCascade(s, tx, height, fundingMissing) == Replay(s, Trace(s, tx, height, fundingMissing), height)
    decreases |Pending(s)|, if tx.txid in Pending(s) then 0 else 2, 0
  {
    hide SettleFailedDispatch, Victims, SpeedupRecords, Pending;
    SettleShrinksPending(s, tx, height, fundingMissing);
    var settled := SettleFailedDispatch(s, tx, height, fundingMissing);
    SubsetSize(Pending(settled), Pending(s));
    var ds := Victims(settled, SpeedupRecords(settled), tx.txid);
    CascadeOverIsReplay(settled, ds, height);
    assert Trace(s, tx, height, fundingMissing)[1..] == TraceOver(settled, ds, height);
  }

  lemma {:induction false} CascadeOverIsReplay(s: State, ds: seq<CoordinatedTx>, height: BlockHeight)
    ensures CascadeOver(s, ds, height) == Replay(s, TraceOver(s, ds, height), height)
    decreases |Pending(s)|, if AllPending(s, ds) then 1 else 3, |ds|
  {
    if ds != [] {
      var next := FailAndCascade(s, ds[0], height, true);
      SubsetSize(Pending(next), Pending(s));
      CascadeIsReplay(s, ds[0], height, true);
      CascadeOverIsReplay(next, ds[1..], height);
      ReplayConcat(s, Trace(s, ds[0], height, true), TraceOver(next, ds[1..], height), height);
    }
  }

  // ---------------------------------------------------------------- frames

  lemma {:induction false} ReleaseMarksFrame(s: State, us: seq<Utxo>)
    ensures OnlyMarksDiffer(s, ReleaseMarks(s, us))
    decreases |us|
  {
    hide OnlyMarksDiffer;
    if us == [] {
      MarksDiffReflexive(s);
    } else {
      SetSpentFrame(s, us[0].op, false);
      ReleaseMarksFrame(SetSpent(s, us[0].op, false), us[1..]);
      MarksDiffTransitive(s, SetSpent(s, us[0].op, false), ReleaseMarks(s, us));
    }
  }

  lemma SettleTxEvolves(s: State, t: Txid, height: BlockHeight)
    ensures Evolves(s, SettleTx(s, t, Failed, height))
  {
    if RejectionNews(s, t, Failed).Some? {
      SameCoreFrame(s, SettleTx(s, t, Failed, height));
    } else {
      SameShapeReflexive(s.txs[t]);
      PutEvolves(s, t, s.txs[t].(state := Failed, settledBlockHeight := Some(height)));
    }
  }

  lemma ReleaseClaimsFrame(s: State, d: CoordinatedTx)
    ensures OnlyMarksDiffer(s, ReleaseClaims(s, d))
  {
    hide OnlyMarksDiffer;
    ReleaseMarksFrame(s, d.Claimed());
    if d.IsRBF() {
      SetReplacedByFrame(ReleaseMarks(s, d.Claimed()), d.kind.speedup.predecessor, None);
      MarksDiffTransitive(s, ReleaseMarks(s, d.Claimed()), ReleaseClaims(s, d));
    }
  }

  lemma SettleEvolves(s: State, d: CoordinatedTx, height: BlockHeight, fundingMissing: bool)
    ensures Evolves(s, SettleFailedDispatch(s, d, height, fundingMissing))
  {
    var failed := SettleTx(s, d.txid, Failed, height);
    var settled := AddNews(failed, DispatchErrorNews(d));
    var released := ReleaseClaims(settled, d);
    SettleTxEvolves(s, d.txid, height);
    SameCoreFrame(failed, settled);
    ReleaseClaimsFrame(settled, d);
    SameCoreFrame(released, RequeueProtocolParents(released, d));
    hide Evolves, ReleaseClaims, SettleTx, AddNews, RequeueProtocolParents, Live, Waiting, Prebuilt, Masked, Reserved;
    EvolvesTransitive(s, failed, settled);
    EvolvesTransitive(s, settled, released);
    EvolvesTransitive(s, released, RequeueProtocolParents(released, d));
  }

  /** One settlement changes no state but its own. */
  lemma SettleStates(s: State, d: CoordinatedTx, height: BlockHeight, fundingMissing: bool, t: Txid)
    requires t in s.txs
    ensures t in SettleFailedDispatch(s, d, height, fundingMissing).txs
    ensures SettleFailedDispatch(s, d, height, fundingMissing).txs[t].state
            == if t == d.txid && s.txs[t].state.CanTransitionTo(Failed) then Failed else s.txs[t].state
  {
    var settled := AddNews(SettleTx(s, d.txid, Failed, height), DispatchErrorNews(d));
    ReleaseClaimsFrame(settled, d);
    hide ReleaseClaims, SameShape, StillNeedSpeedup;
  }

  lemma {:induction false} ReplayEvolves(s: State, falls: seq<Fall>, height: BlockHeight)
    ensures Evolves(s, Replay(s, falls, height))
    decreases |falls|
  {
    if falls == [] {
      EvolvesReflexive(s);
    } else {
      var next := SettleFailedDispatch(s, falls[0].tx, height, falls[0].fundingMissing);
      SettleEvolves(s, falls[0].tx, height, falls[0].fundingMissing);
      ReplayEvolves(next, falls[1..], height);
      EvolvesTransitive(s, next, Replay(s, falls, height));
    }
  }

  // ---------------------------------------------------------------- what the trace contains

  lemma EvolvedMatches(s: State, s': State, d: CoordinatedTx)
    requires Evolves(s, s') && Matches(s', d)
    ensures Matches(s, d)
  {
    assert SameShape(s.txs[d.txid], s'.txs[d.txid]);
  }

  lemma EvolvesKeepsKeys(s: State, s': State)
    requires KeysOk(s) && Evolves(s, s')
    ensures KeysOk(s')
  {
    forall t | t in s'.txs ensures s'.txs[t].txid == t {
      assert SameShape(s.txs[t], s'.txs[t]);
    }
  }

  /** `f` settles a record that was waiting when the cascade began. */
  ghost predicate FallsFrom(s: State, f: Fall) {
    f.fundingMissing && f.tx.txid in Pending(s) && Matches(s, f.tx)
  }

  lemma VictimsMatch(s: State, t: Txid, d: CoordinatedTx)
    requires KeysOk(s) && d in Victims(s, SpeedupRecords(s), t)
    ensures Matches(s, d) && d.txid in Pending(s)
  {
    SameShapeReflexive(d);
  }

  lemma {:induction false} TraceFalls(s: State, tx: CoordinatedTx, height: BlockHeight, fundingMissing: bool)
    requires KeysOk(s)
    ensures Trace(s, tx, height, fundingMissing)[0] == Fall(tx, fundingMissing)
    ensures forall i :: 0 < i < |Trace(s, tx, height, fundingMissing)| ==>
              FallsFrom(s, Trace(s, tx, height, fundingMissing)[i])
    decreases |Pending(s)|, if tx.txid in Pending(s) then 0 else 2, 0
  {
    hide SettleFailedDispatch, Victims, SpeedupRecords, Pending, Evolves, KeysOk, Matches;
    SettleShrinksPending(s, tx, height, fundingMissing);
    var settled := SettleFailedDispatch(s, tx, height, fundingMissing);
    SettleEvolves(s, tx, height, fundingMissing);
    EvolvesKeepsKeys(s, settled);
    SubsetSize(Pending(settled), Pending(s));
    var ds := Victims(settled, SpeedupRecords(settled), tx.txid);
    forall d | d in ds ensures Matches(settled, d) {
      VictimsMatch(settled, tx.txid, d);
    }
    EvolvesReflexive(settled);
    TraceOverFalls(settled, settled, ds, height);
    var rest := TraceOver(settled, ds, height);
    forall i | 0 <= i < |rest| ensures FallsFrom(s, rest[i]) {
      EvolvedMatches(s, settled, rest[i].tx);
    }
  }

  lemma {:induction false} TraceOverFalls(start: State, s: State, ds: seq<CoordinatedTx>, height: BlockHeight)
    requires KeysOk(s) && Evolves(start, s) && Pending(s) <= Pending(start)
    requires forall d :: d in ds ==> Matches(start, d) && d.txid in Pending(start)
    ensures forall i :: 0 <= i < |TraceOver(s, ds, height)| ==> FallsFrom(start, TraceOver(s, ds, height)[i])
    decreases |Pending(s)|, if AllPending(s, ds) then 1 else 3, |ds|
  {
    hide SettleFailedDispatch, Victims, SpeedupRecords, Pending, Evolves, KeysOk, Matches, FailAndCascade;
    if ds != [] {
      var next := FailAndCascade(s, ds[0], height, true);
      SubsetSize(Pending(next), Pending(s));
      TraceFalls(s, ds[0], height, true);
      var first := Trace(s, ds[0], height, true);
      forall i | 0 <= i < |first| ensures FallsFrom(start, first[i]) {
        if i > 0 {
          assert FallsFrom(s, first[i]);
          EvolvedMatches(start, s, first[i].tx);
        }
      }
      CascadeIsReplay(s, ds[0], height, true);
      ReplayEvolves(s, first, height);
      EvolvesTransitive(start, s, next);
      EvolvesKeepsKeys(s, next);
      TraceOverFalls(start, next, ds[1..], height);
    }
  }

  // ---------------------------------------------------------------- the cascade keeps the invariant

  /** `d` may be settled now: it is waiting, or it already fell and nobody relies on its claims. */
  ghost predicate MayFall(s: State, d: CoordinatedTx) {
    && Matches(s, d)
    && SafeToRelease(s, d)
    && (IsSpeedup(s, d.txid) ==> s.txs[d.txid].state.ToDispatch? || s.txs[d.txid].state.Failed?)
  }

  lemma SettleKeepsMayFall(s: State, s': State, d: CoordinatedTx)
    requires Declines(s, s') && MayFall(s, d)
    ensures MayFall(s', d)
  {
    DeclineKeepsSafe(s, s', d);
    DeclineKeepsMatches(s, s', d);
    EvolvesReadsSame(s, s');
    hide Evolves, SafeToRelease, SameShape;
  }

  lemma {:induction false} ReplayKeepsInv(s: State, falls: seq<Fall>, height: BlockHeight)
    requires Inv(s)
    requires forall i :: 0 <= i < |falls| ==> MayFall(s, falls[i].tx)
    ensures Inv(Replay(s, falls, height)) && Declines(s, Replay(s, falls, height))
    decreases |falls|
  {
    hide Inv, Evolves, SafeToRelease, Matches;
    if falls == [] {
      EvolvesReflexive(s);
    } else {
      var next := SettleFailedDispatch(s, falls[0].tx, height, falls[0].fundingMissing);
      assert MayFall(s, falls[0].tx);
      SettleFailedDispatchKeepsInv(s, falls[0].tx, height, falls[0].fundingMissing);
      forall i | 0 <= i < |falls[1..]| ensures MayFall(next, falls[1..][i].tx) {
        SettleKeepsMayFall(s, next, falls[i + 1].tx);
      }
      ReplayKeepsInv(next, falls[1..], height);
      DeclinesTransitive(s, next, Replay(s, falls, height));
    }
  }

  lemma MatchedSafe(s: State, d: CoordinatedTx, d': CoordinatedTx)
    requires SafeToRelease(s, d) && SameShape(d, d')
    ensures SafeToRelease(s, d')
  {}

  lemma PendingMayFall(s: State, d: CoordinatedTx)
    requires Inv(s) && d.txid in Pending(s) && Matches(s, d)
    ensures MayFall(s, d)
  {
    WaitingIsSafe(s, d.txid);
    MatchedSafe(s, s.txs[d.txid], d);
  }

  /** A cascade from any transaction that may fall keeps the whole invariant. */
  lemma FailAndCascadeKeepsInv(s: State, tx: CoordinatedTx, height: BlockHeight, fundingMissing: bool)
    requires Inv(s) && MayFall(s, tx)
    ensures Inv(FailAndCascade(s, tx, height, fundingMissing))
    ensures Declines(s, FailAndCascade(s, tx, height, fundingMissing))
  {
    assert KeysOk(s);
    hide Inv, Pending, Matches, SafeToRelease, MayFall, Declines, Trace, Replay, KeysOk;
    var falls := Trace(s, tx, height, fundingMissing);
    TraceFalls(s, tx, height, fundingMissing);
    CascadeIsReplay(s, tx, height, fundingMissing);
    forall i | 0 <= i < |falls| ensures MayFall(s, falls[i].tx) {
      if i > 0 {
        assert FallsFrom(s, falls[i]);
        PendingMayFall(s, falls[i].tx);
      }
    }
    ReplayKeepsInv(s, falls, height);
  }

  // ---------------------------------------------------------------- the cascade is a closure

  /** What a speedup rests on: the producer of its first funding input, and the parents it covers. */
  predicate RestsOn(r: CoordinatedTx, t: Txid) {
    && r.kind.Speedup?
    && (|| (r.kind.speedup.context.fundingInputs != [] && r.kind.speedup.context.fundingInputs[0].op.txid == t)
        || (r.kind.speedup.CPFP? && t in r.kind.speedup.parents))
  }

  /** The waiting speedups are the listed ones that are to be dispatched. */
  lemma PendingIs(s: State, t: Txid)
    ensures t in Pending(s) <==> t in s.speedups && t in s.txs && s.txs[t].kind.Speedup? && s.txs[t].state.ToDispatch?
  {}

  /** `e` is waiting and `n` further waiting speedups, each resting on the previous one, link it to `root`. */
  ghost predicate ReachesIn(s: State, root: Txid, e: Txid, n: nat)
    decreases n
  {
    && e in Pending(s)
    && if n == 0 then RestsOn(s.txs[e], root)
       else exists d :: ReachesIn(s, root, d, n - 1) && RestsOn(s.txs[e], d)
  }

  ghost predicate Reaches(s: State, root: Txid, e: Txid) {
    exists n: nat :: ReachesIn(s, root, e, n)
  }

  lemma ReachExtends(s: State, root: Txid, d: Txid, e: Txid)
    requires Reaches(s, root, d) && e in Pending(s) && RestsOn(s.txs[e], d)
    ensures Reaches(s, root, e)
  {
    var n: nat :| ReachesIn(s, root, d, n);
    assert ReachesIn(s, root, e, n + 1);
  }

  lemma ReachFirst(s: State, root: Txid, e: Txid)
    requires e in Pending(s) && RestsOn(s.txs[e], root)
    ensures Reaches(s, root, e)
  {
    assert ReachesIn(s, root, e, 0);
  }

  lemma SameShapeDepends(a: CoordinatedTx, b: CoordinatedTx, t: Txid)
    requires SameShape(a, b)
    ensures RestsOn(a, t) == RestsOn(b, t)
  {}

  /** Two stores agree on dependencies when one evolves from the other. */
  lemma EvolvedDepends(s: State, s': State, d: Txid, e: Txid)
    requires Evolves(s, s') && d in s.txs
    ensures d in s'.txs && RestsOn(s'.txs[d], e) == RestsOn(s.txs[d], e)
  {
    SameShapeDepends(s.txs[d], s'.txs[d], e);
  }

  /** Reaching from `d` in a later store, when `d` is reached from `root` in the first one. */
  lemma {:induction false} ReachComposes(s: State, s': State, root: Txid, d: Txid, e: Txid, n: nat)
    requires Evolves(s, s') && Pending(s') <= Pending(s)
    requires ReachesIn(s', d, e, n) && Reaches(s, root, d)
    ensures Reaches(s, root, e)
    decreases n
  {
    hide Evolves, SameShape;
    var z := d;
    if n > 0 {
      z :| ReachesIn(s', d, z, n - 1) && RestsOn(s'.txs[e], z);
      ReachComposes(s, s', root, d, z, n - 1);
    }
    EvolvedDepends(s, s', e, z);
    ReachExtends(s, root, z, e);
  }

  lemma FailAndCascadeEvolves(s: State, tx: CoordinatedTx, height: BlockHeight, fundingMissing: bool)
    ensures Evolves(s, FailAndCascade(s, tx, height, fundingMissing))
  {
    CascadeIsReplay(s, tx, height, fundingMissing);
    ReplayEvolves(s, Trace(s, tx, height, fundingMissing), height);
  }

  /** Soundness: a waiting speedup that falls is the root or is reached from it. */
  lemma {:induction false} OnlyReachedFall(s: State, tx: CoordinatedTx, height: BlockHeight, fundingMissing: bool, e: Txid)
    requires KeysOk(s)
    requires e in Pending(s) && e !in Pending(FailAndCascade(s, tx, height, fundingMissing))
    ensures e == tx.txid || Reaches(s, tx.txid, e)
    decreases |Pending(s)|, if tx.txid in Pending(s) then 0 else 2, 0
  {
    hide SettleFailedDispatch, SpeedupRecords, Pending, Evolves, KeysOk, Matches, Reaches;
    SettleShrinksPending(s, tx, height, fundingMissing);
    var settled := SettleFailedDispatch(s, tx, height, fundingMissing);
    SettleEvolves(s, tx, height, fundingMissing);
    EvolvesKeepsKeys(s, settled);
    SubsetSize(Pending(settled), Pending(s));
    var ds := Victims(settled, SpeedupRecords(settled), tx.txid);
    if e != tx.txid {
      forall d | d in ds ensures Reaches(s, tx.txid, d.txid) {
        VictimsReached(s, settled, tx.txid, d);
      }
      OnlyReachedFallOver(s, tx.txid, settled, ds, height, e);
    }
  }

  lemma VictimsReached(s: State, settled: State, t: Txid, d: CoordinatedTx)
    requires Evolves(s, settled) && Pending(settled) <= Pending(s) && KeysOk(settled)
    requires d in Victims(settled, SpeedupRecords(settled), t)
    ensures Reaches(s, t, d.txid)
  {
    assert d == settled.txs[d.txid];
    EvolvedDepends(s, settled, d.txid, t);
    ReachFirst(s, t, d.txid);
  }

  lemma {:induction false} OnlyReachedFallOver(start: State, root: Txid, s: State, ds: seq<CoordinatedTx>,
                                               height: BlockHeight, e: Txid)
    requires KeysOk(s) && Evolves(start, s) && Pending(s) <= Pending(start)
    requires forall d :: d in ds ==> Reaches(start, root, d.txid)
    requires e in Pending(s) && e !in Pending(CascadeOver(s, ds, height))
    ensures Reaches(start, root, e)
    decreases |Pending(s)|, if AllPending(s, ds) then 1 else 3, |ds|
  {
    hide Pending, Evolves, KeysOk, FailAndCascade, SettleFailedDispatch;
    var next := FailAndCascade(s, ds[0], height, true);
    SubsetSize(Pending(next), Pending(s));
    FailAndCascadeEvolves(s, ds[0], height, true);
    EvolvesTransitive(start, s, next);
    EvolvesKeepsKeys(s, next);
    if e in Pending(next) {
      OnlyReachedFallOver(start, root, next, ds[1..], height, e);
    } else {
      OnlyReachedFall(s, ds[0], height, true, e);
      if e != ds[0].txid {
        var n: nat :| ReachesIn(s, ds[0].txid, e, n);
        ReachComposes(start, s, root, ds[0].txid, e, n);
      }
    }
  }

  /** Completeness, although each level iterates a stale snapshot: nothing left waiting depends on what fell. */
  ghost predicate NoDependents(s: State, s': State, t: Txid) {
    && (forall d :: d in Pending(s') ==> !RestsOn(s'.txs[d], t))
    && (forall d, e :: d in Pending(s') && e in Pending(s) && e !in Pending(s') ==> !RestsOn(s'.txs[d], e))
  }

  lemma {:induction false} CascadeLeavesNoDependents(s: State, tx: CoordinatedTx, height: BlockHeight, fundingMissing: bool)
    requires KeysOk(s)
    ensures NoDependents(s, FailAndCascade(s, tx, height, fundingMissing), tx.txid)
    decreases |Pending(s)|, if tx.txid in Pending(s) then 0 else 2, 0
  {
    hide SettleFailedDispatch, Pending, Evolves, KeysOk, SpeedupRecords;
    SettleShrinksPending(s, tx, height, fundingMissing);
    var settled := SettleFailedDispatch(s, tx, height, fundingMissing);
    SettleEvolves(s, tx, height, fundingMissing);
    EvolvesKeepsKeys(s, settled);
    SubsetSize(Pending(settled), Pending(s));
    var ds := Victims(settled, SpeedupRecords(settled), tx.txid);
    var r := CascadeOver(settled, ds, height);
    CascadeOverLeavesNoDependents(settled, ds, height);
    PendingStored(r);
    forall d | d in Pending(r) ensures !RestsOn(r.txs[d], tx.txid) {
      PendingIsListed(settled, d);
      CascadeOverEvolves(settled, ds, height);
      EvolvedDepends(settled, r, d, tx.txid);
    }
  }

  lemma PendingStored(s: State)
    ensures forall d :: d in Pending(s) ==> d in s.txs
  {}

  lemma PendingIsListed(s: State, d: Txid)
    requires KeysOk(s) && d in Pending(s)
    ensures d in s.txs && s.txs[d] in SpeedupRecords(s) && s.txs[d].txid == d
  {}

  lemma CascadeOverEvolves(s: State, ds: seq<CoordinatedTx>, height: BlockHeight)
    ensures Evolves(s, CascadeOver(s, ds, height))
  {
    CascadeOverIsReplay(s, ds, height);
    ReplayEvolves(s, TraceOver(s, ds, height), height);
  }

  lemma {:induction false} CascadeOverLeavesNoDependents(s: State, ds: seq<CoordinatedTx>, height: BlockHeight)
    requires KeysOk(s)
    ensures forall i :: 0 <= i < |ds| ==> ds[i].txid !in Pending(CascadeOver(s, ds, height))
    ensures forall d, e :: d in Pending(CascadeOver(s, ds, height)) && e in Pending(s)
                           && e !in Pending(CascadeOver(s, ds, height)) ==>
                             !RestsOn(CascadeOver(s, ds, height).txs[d], e)
    decreases |Pending(s)|, if AllPending(s, ds) then 1 else 3, |ds|
  {
    hide Pending, Evolves, KeysOk, FailAndCascade, SettleFailedDispatch;
    if ds != [] {
      var next := FailAndCascade(s, ds[0], height, true);
      var r := CascadeOver(next, ds[1..], height);
      SubsetSize(Pending(next), Pending(s));
      FailAndCascadeEvolves(s, ds[0], height, true);
      EvolvesKeepsKeys(s, next);
      CascadeLeavesNoDependents(s, ds[0], height, true);
      CascadeOverLeavesNoDependents(next, ds[1..], height);
      CascadeOverEvolves(next, ds[1..], height);
      PendingStored(r);
      forall d, e | d in Pending(r) && e in Pending(s) && e !in Pending(r) ensures !RestsOn(r.txs[d], e) {
        if e !in Pending(next) {
          assert d in Pending(next);
          PendingIsListed(next, d);
          EvolvedDepends(next, r, d, e);
        }
      }
    }
  }

  lemma {:induction false} ReachedFalls(s: State, s': State, root: Txid, e: Txid, n: nat)
    requires Evolves(s, s') && NoDependents(s, s', root) && ReachesIn(s, root, e, n)
    ensures e !in Pending(s')
    decreases n
  {
    hide Evolves;
    var z := root;
    if n > 0 {
      z :| ReachesIn(s, root, z, n - 1) && RestsOn(s.txs[e], z);
      ReachedFalls(s, s', root, z, n - 1);
    }
    EvolvedDepends(s, s', e, z);
  }

  lemma {:induction false} ReplayStates(s: State, falls: seq<Fall>, height: BlockHeight, t: Txid)
    requires t in s.txs
    ensures t in Replay(s, falls, height).txs
    ensures (forall i :: 0 <= i < |falls| ==> falls[i].tx.txid != t) ==>
              Replay(s, falls, height).txs[t].state == s.txs[t].state
    ensures Replay(s, falls, height).txs[t].state == s.txs[t].state || Replay(s, falls, height).txs[t].state.Failed?
    ensures !s.txs[t].state.CanTransitionTo(Failed) ==> Replay(s, falls, height).txs[t].state == s.txs[t].state
    decreases |falls|
  {
    if falls != [] {
      var next := SettleFailedDispatch(s, falls[0].tx, height, falls[0].fundingMissing);
      SettleStates(s, falls[0].tx, height, falls[0].fundingMissing, t);
      hide SettleFailedDispatch;
      ReplayStates(next, falls[1..], height, t);
    }
  }

  /** Which records a cascade from `root` settles: the root and the waiting speedups reached from it. */
  ghost predicate Falls(s: State, root: Txid, t: Txid) {
    || (t == root && t in s.txs && s.txs[t].state.CanTransitionTo(Failed))
    || (t in Pending(s) && Reaches(s, root, t))
  }

  /** The cascade settles exactly the closure of its root and changes no other record's state. */
  lemma CascadeIsClosure(s: State, tx: CoordinatedTx, height: BlockHeight, fundingMissing: bool, t: Txid)
    requires KeysOk(s) && t in s.txs
    ensures t in FailAndCascade(s, tx, height, fundingMissing).txs
    ensures FailAndCascade(s, tx, height, fundingMissing).txs[t].state
            == if Falls(s, tx.txid, t) then Failed else s.txs[t].state
  {
    hide SettleFailedDispatch, FailAndCascade, Evolves, KeysOk, Trace;
    var r := FailAndCascade(s, tx, height, fundingMissing);
    var falls := Trace(s, tx, height, fundingMissing);
    CascadeIsReplay(s, tx, height, fundingMissing);
    ReplayStates(s, falls, height, t);
    TraceFalls(s, tx, height, fundingMissing);
    FailAndCascadeEvolves(s, tx, height, fundingMissing);
    CascadeLeavesNoDependents(s, tx, height, fundingMissing);
    if t in Pending(s) {
      PendingAfter(s, r, t);
      if t !in Pending(r) {
        OnlyReachedFall(s, tx, height, fundingMissing, t);
      }
      if Reaches(s, tx.txid, t) {
        var n: nat :| ReachesIn(s, tx.txid, t, n);
        ReachedFalls(s, r, tx.txid, t, n);
      }
    } else if t == tx.txid {
      if s.txs[t].state.CanTransitionTo(Failed) {
        RootSettles(s, tx, height, fundingMissing);
      }
    } else {
      forall i | 0 <= i < |falls| ensures falls[i].tx.txid != t {
        assert i > 0 ==> FallsFrom(s, falls[i]);
      }
    }
  }

  lemma PendingAfter(s: State, s': State, t: Txid)
    requires Evolves(s, s') && t in Pending(s)
    ensures t in s'.txs && (t in Pending(s') <==> s'.txs[t].state.ToDispatch?)
  {
    assert SameShape(s.txs[t], s'.txs[t]);
  }

  lemma RootSettles(s: State, tx: CoordinatedTx, height: BlockHeight, fundingMissing: bool)
    requires tx.txid in s.txs && s.txs[tx.txid].state.CanTransitionTo(Failed)
    ensures tx.txid in FailAndCascade(s, tx, height, fundingMissing).txs
    ensures FailAndCascade(s, tx, height, fundingMissing).txs[tx.txid].state.Failed?
  {
    var falls := Trace(s, tx, height, fundingMissing);
    CascadeIsReplay(s, tx, height, fundingMissing);
    var next := SettleFailedDispatch(s, tx, height, fundingMissing);
    SettleStates(s, tx, height, fundingMissing, tx.txid);
    assert falls[0] == Fall(tx, fundingMissing);
    hide SettleFailedDispatch, FailAndCascade, Trace;
    ReplayStates(next, falls[1..], height, tx.txid);
  }

  // ---------------------------------------------------------------- the cascade is idempotent

  /** The mark `op` resolves to is clear. */
  predicate MarkClear(s: State, op: OutPoint) {
    if op in s.funding then !s.funding[op].spent
    else op.txid in s.txs ==> !s.txs[op.txid].IsSpent()
  }

  predicate SettledAt(s: State, t: Txid, height: BlockHeight) {
    var rejection := RejectionNews(s, t, Failed);
    if rejection.Some? then rejection.value in s.news
    else s.txs[t].state.Failed? && s.txs[t].settledBlockHeight == Some(height)
  }

  /** Settling `d` once more at `height` would change nothing. */
  ghost predicate AtRest(s: State, d: CoordinatedTx, height: BlockHeight, fundingMissing: bool) {
    && SettledAt(s, d.txid, height)
    && DispatchErrorNews(d) in s.news
    && (forall i :: 0 <= i < |d.Claimed()| ==> MarkClear(s, d.Claimed()[i].op))
    && (forall p :: d.Supersedes(p) && p in s.txs ==> !s.txs[p].IsBeingReplaced())
    && (fundingMissing ==> forall t :: t in StillNeedSpeedup(s, d.Parents()) ==> t in s.psp)
  }

  lemma ClearMarkFixed(s: State, op: OutPoint)
    requires MarkClear(s, op)
    ensures SetSpent(s, op, false) == s
  {
    if op in s.funding {
      assert s.funding[op := s.funding[op].(spent := false)] == s.funding;
    } else if op.txid in s.txs && s.txs[op.txid].kind.Speedup? {
      var r := s.txs[op.txid];
      assert r.WithContext(r.kind.speedup.context.(spent := false)) == r;
      assert s.txs[op.txid := r] == s.txs;
    }
  }

  lemma {:induction false} ClearMarksFixed(s: State, us: seq<Utxo>)
    requires forall i :: 0 <= i < |us| ==> MarkClear(s, us[i].op)
    ensures ReleaseMarks(s, us) == s
    decreases |us|
  {
    if us != [] {
      ClearMarkFixed(s, us[0].op);
      ClearMarksFixed(s, us[1..]);
    }
  }

  lemma {:induction false} ExcludingAll<T(!new)>(xs: seq<T>, gone: set<T>)
    requires forall x :: x in xs ==> x in gone
    ensures Excluding(xs, gone) == []
  {
    if xs != [] {
      ExcludingAll(xs[1..], gone);
    }
  }

  lemma AtRestFixed(s: State, d: CoordinatedTx, height: BlockHeight, fundingMissing: bool)
    requires AtRest(s, d, height, fundingMissing)
    ensures SettleFailedDispatch(s, d, height, fundingMissing) == s
  {
    assert SettleTx(s, d.txid, Failed, height) == s by {
      if RejectionNews(s, d.txid, Failed).None? {
        assert s.txs[d.txid := s.txs[d.txid]] == s.txs;
      } else {
        assert s.news + {RejectionNews(s, d.txid, Failed).value} == s.news;
      }
    }
    assert s.news + {DispatchErrorNews(d)} == s.news;
    ClearMarksFixed(s, d.Claimed());
    assert ReleaseClaims(s, d) == s by {
      if d.IsRBF() {
        var p := d.kind.speedup.predecessor;
        assert d.Supersedes(p);
        if IsSpeedup(s, p) {
          var r := s.txs[p];
          assert r.WithContext(r.kind.speedup.context.(replacedBy := None)) == r;
          assert s.txs[p := r] == s.txs;
        }
      }
    }
    if fundingMissing {
      ExcludingAll(StillNeedSpeedup(s, d.Parents()), Elements(s.psp));
      assert [] + s.psp == s.psp;
    }
  }

  /** Marks are only cleared, news and pending parents only grow, settled records keep their height. */
  ghost predicate Quiets(s: State, s': State, height: BlockHeight) {
    && Evolves(s, s')
    && s.news <= s'.news
    && (forall t :: t in s.psp ==> t in s'.psp)
    && (forall op :: MarkClear(s, op) ==> MarkClear(s', op))
    && (forall t :: t in s.txs && !s.txs[t].IsBeingReplaced() ==> !s'.txs[t].IsBeingReplaced())
    && (forall t :: SettledAt(s, t, height) ==> SettledAt(s', t, height))
  }

  lemma QuietKeepsRest(s: State, s': State, d: CoordinatedTx, height: BlockHeight, fundingMissing: bool)
    requires Quiets(s, s', height) && AtRest(s, d, height, fundingMissing)
    ensures AtRest(s', d, height, fundingMissing)
  {
    forall t | t in StillNeedSpeedup(s', d.Parents()) ensures t in StillNeedSpeedup(s, d.Parents()) {
      assert SameShape(s.txs[t], s'.txs[t]);
    }
  }

  lemma QuietsTransitive(a: State, b: State, c: State, height: BlockHeight)
    requires Quiets(a, b, height) && Quiets(b, c, height)
    ensures Quiets(a, c, height)
  {
    assert a.txs.Keys == b.txs.Keys;
    EvolvesTransitive(a, b, c);
    hide Evolves, MarkClear, SettledAt;
  }

  lemma SettleTxQuiets(s: State, t: Txid, height: BlockHeight)
    ensures Quiets(s, SettleTx(s, t, Failed, height), height)
    ensures SettledAt(SettleTx(s, t, Failed, height), t, height)
  {
    SettleTxEvolves(s, t, height);
    hide Evolves;
  }

  lemma ClearKeepsClear(s: State, op: OutPoint, other: OutPoint)
    requires MarkClear(s, other)
    ensures MarkClear(SetSpent(s, op, false), other)
  {}

  lemma ClearKeepsSettled(s: State, op: OutPoint, t: Txid, height: BlockHeight)
    requires SettledAt(s, t, height)
    ensures SettledAt(SetSpent(s, op, false), t, height)
  {}

  lemma SetSpentQuiets(s: State, op: OutPoint, height: BlockHeight)
    ensures Quiets(s, SetSpent(s, op, false), height)
    ensures MarkClear(SetSpent(s, op, false), op)
  {
    var s' := SetSpent(s, op, false);
    assert MarkClear(s', op) && s'.news == s.news;
    hide SetSpent, Evolves, SameShape, MarkClear, SettledAt;
    SetSpentFrame(s, op, false);
    forall other | MarkClear(s, other) ensures MarkClear(s', other) {
      ClearKeepsClear(s, op, other);
    }
    forall t | SettledAt(s, t, height) ensures SettledAt(s', t, height) {
      ClearKeepsSettled(s, op, t, height);
    }
  }

  lemma {:induction false} ReleaseQuiets(s: State, us: seq<Utxo>, height: BlockHeight)
    ensures Quiets(s, ReleaseMarks(s, us), height)
    ensures forall i :: 0 <= i < |us| ==> MarkClear(ReleaseMarks(s, us), us[i].op)
    decreases |us|
  {
    hide SetSpent, Evolves, MarkClear, SettledAt;
    if us == [] {
      EvolvesReflexive(s);
    } else {
      SetSpentQuiets(s, us[0].op, height);
      ReleaseQuiets(SetSpent(s, us[0].op, false), us[1..], height);
      QuietsTransitive(s, SetSpent(s, us[0].op, false), ReleaseMarks(s, us), height);
    }
  }

  lemma UnmaskQuiets(s: State, p: Txid, height: BlockHeight)
    ensures Quiets(s, SetReplacedBy(s, p, None), height)
    ensures p in s.txs ==> !SetReplacedBy(s, p, None).txs[p].IsBeingReplaced()
  {
    SetReplacedByFrame(s, p, None);
    hide Evolves, SameShape;
  }

  lemma CoreQuiets(s: State, s': State, height: BlockHeight)
    requires SameCore(s, s') && s.news <= s'.news && forall t :: t in s.psp ==> t in s'.psp
    ensures Quiets(s, s', height)
  {
    SameCoreFrame(s, s');
    hide Evolves;
  }

  lemma ReleaseClaimsQuiets(s: State, d: CoordinatedTx, height: BlockHeight)
    ensures Quiets(s, ReleaseClaims(s, d), height)
    ensures forall i :: 0 <= i < |d.Claimed()| ==> MarkClear(ReleaseClaims(s, d), d.Claimed()[i].op)
    ensures forall p :: d.Supersedes(p) && p in ReleaseClaims(s, d).txs ==> !ReleaseClaims(s, d).txs[p].IsBeingReplaced()
  {
    var marked := ReleaseMarks(s, d.Claimed());
    ReleaseQuiets(s, d.Claimed(), height);
    if d.IsRBF() {
      hide Quiets, MarkClear, ReleaseMarks, SetReplacedBy;
      UnmaskQuiets(marked, d.kind.speedup.predecessor, height);
      QuietsTransitive(s, marked, ReleaseClaims(s, d), height);
      forall i | 0 <= i < |d.Claimed()| ensures MarkClear(ReleaseClaims(s, d), d.Claimed()[i].op) {
        QuietKeepsClear(marked, ReleaseClaims(s, d), height, d.Claimed()[i].op);
      }
      SetReplacedBySameKeys(marked, d.kind.speedup.predecessor);
    }
  }

  lemma QuietKeepsClear(s: State, s': State, height: BlockHeight, op: OutPoint)
    requires Quiets(s, s', height) && MarkClear(s, op)
    ensures MarkClear(s', op)
  {}

  lemma SetReplacedBySameKeys(s: State, p: Txid)
    ensures SetReplacedBy(s, p, None).txs.Keys == s.txs.Keys
  {}

  lemma SettleQuiets(s: State, d: CoordinatedTx, height: BlockHeight, fundingMissing: bool)
    ensures Quiets(s, SettleFailedDispatch(s, d, height, fundingMissing), height)
  {
    var failed := SettleTx(s, d.txid, Failed, height);
    var settled := AddNews(failed, DispatchErrorNews(d));
    var released := ReleaseClaims(settled, d);
    hide SettleTx, ReleaseClaims, Quiets;
    SettleTxQuiets(s, d.txid, height);
    CoreQuiets(failed, settled, height);
    ReleaseClaimsQuiets(settled, d, height);
    CoreQuiets(released, SettleFailedDispatch(s, d, height, fundingMissing), height);
    QuietsTransitive(s, failed, settled, height);
    QuietsTransitive(s, settled, released, height);
    QuietsTransitive(s, released, SettleFailedDispatch(s, d, height, fundingMissing), height);
  }

  lemma SettleRests(s: State, d: CoordinatedTx, height: BlockHeight, fundingMissing: bool)
    ensures AtRest(SettleFailedDispatch(s, d, height, fundingMissing), d, height, fundingMissing)
  {
    var failed := SettleTx(s, d.txid, Failed, height);
    var settled := AddNews(failed, DispatchErrorNews(d));
    var released := ReleaseClaims(settled, d);
    var r := SettleFailedDispatch(s, d, height, fundingMissing);
    SettleTxQuiets(s, d.txid, height);
    hide SettleTx, ReleaseClaims, Evolves, MarkClear, SettledAt, StillNeedSpeedup, SameShape;
    CoreQuiets(failed, settled, height);
    ReleaseClaimsQuiets(settled, d, height);
    CoreQuiets(released, r, height);
    assert SettledAt(r, d.txid, height);
    assert forall t :: t in StillNeedSpeedup(r, d.Parents()) ==> t in StillNeedSpeedup(released, d.Parents());
  }

  lemma {:induction false} ReplayQuiets(s: State, falls: seq<Fall>, height: BlockHeight)
    ensures Quiets(s, Replay(s, falls, height), height)
    decreases |falls|
  {
    if falls == [] {
      EvolvesReflexive(s);
    } else {
      var next := SettleFailedDispatch(s, falls[0].tx, height, falls[0].fundingMissing);
      SettleQuiets(s, falls[0].tx, height, falls[0].fundingMissing);
      hide Quiets, SettleFailedDispatch;
      ReplayQuiets(next, falls[1..], height);
      QuietsTransitive(s, next, Replay(s, falls, height), height);
    }
  }

  /** Repeating a cascade at the same height changes nothing: records, marks, pending parents and news stay. */
  lemma CascadeIdempotent(s: State, tx: CoordinatedTx, height: BlockHeight, fundingMissing: bool)
    requires KeysOk(s)
    ensures var r := FailAndCascade(s, tx, height, fundingMissing);
            FailAndCascade(r, tx, height, fundingMissing) == r
  {
    var r := FailAndCascade(s, tx, height, fundingMissing);
    var falls := Trace(s, tx, height, fundingMissing);
    var next := SettleFailedDispatch(s, tx, height, fundingMissing);
    CascadeIsReplay(s, tx, height, fundingMissing);
    assert falls[0] == Fall(tx, fundingMissing);
    SettleRests(s, tx, height, fundingMissing);
    assert AtRest(r, tx, height, fundingMissing) by {
      hide Quiets, AtRest, SettleFailedDispatch, FailAndCascade, Trace;
      ReplayQuiets(next, falls[1..], height);
      QuietKeepsRest(next, r, tx, height, fundingMissing);
    }
    AtRestFixed(r, tx, height, fundingMissing);
    CascadeLeavesNoDependents(s, tx, height, fundingMissing);
    FailAndCascadeEvolves(s, tx, height, fundingMissing);
    EvolvesKeepsKeys(s, r);
    NoVictims(r, tx.txid);
  }

  lemma HasMember(xs: seq<CoordinatedTx>)
    ensures xs != [] ==> exists x :: x in xs
  {
    if xs != [] {
      assert xs[0] in xs;
    }
  }

  lemma NoVictims(s: State, t: Txid)
    requires KeysOk(s) && forall d :: d in Pending(s) ==> !RestsOn(s.txs[d], t)
    ensures Victims(s, SpeedupRecords(s), t) == []
  {
    var ds := Victims(s, SpeedupRecords(s), t);
    forall d | d in SpeedupRecords(s) && d.txid in Pending(s) ensures !RestsOn(d, t) {
      assert d == s.txs[d.txid];
    }
    HasMember(ds);
  }
}

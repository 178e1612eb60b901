/** What becomes of the reservations of a speedup that fails in a dispatch step (src/engines/common.rs:164-226, 433-471). They are
    meant to be free afterwards; an acceptance that writes an older snapshot back can undo the release. */
module ReleaseLaws {
  import opened Types
  import opened Oracles
  import Fees
  import opened States
  import opened Funding
  import opened Failures
  import opened Dispatching
  import opened Engines
  import opened Invariants
  import opened Evolution
  import opened FailureLaws
  import opened CascadeLaws
  import opened DispatchLaws
  import opened OutcomeLaws
  import opened CreationLaws
  import opened SurvivorLaws
  import opened Runs
  import opened EventOutcomes
  import opened LifecycleLaws
  import opened PendingLaws

  /** The mark that `op` resolves to is set: its queue record's, or else that of the speedup it is the change of. */
  predicate Marked(s: State, op: OutPoint) {
    if op in s.funding then s.funding[op].spent
    else op.txid in s.txs && s.txs[op.txid].kind.Speedup? && s.txs[op.txid].kind.speedup.context.spent
  }

  /** The inputs `r` reserved itself; a replacement inherits the rest. */
  function OwnInputs(r: CoordinatedTx): seq<Utxo> {
    if !r.kind.Speedup? then []
    else
      match r.kind.speedup
      case CPFP(_, context) => context.fundingInputs
      case RBF(_, added, _) => added
  }

  predicate ReservedBy(r: CoordinatedTx, op: OutPoint) {
    exists i :: 0 <= i < |OwnInputs(r)| && OwnInputs(r)[i].op == op
  }

  /** Failing outcome `k` settles `v`: it is for `v` itself, or the first one that takes `v` down. */
  ghost predicate SettlesAt(s: State, cfg: Config, node: Node, ds: seq<Dispatch>, height: BlockHeight, v: Txid, k: int) {
    && 0 <= k < |ds| && FailsRoot(cfg, node, ds[k], height)
    && (|| ds[k].tx.txid == v
        || (VictimAt(s, cfg, node, ds, height, v, k) && forall j :: 0 <= j < k ==> !VictimAt(s, cfg, node, ds, height, v, j)))
  }

  /** The speedup whose change `op` is was accepted after the last outcome that settled `v`. */
  ghost predicate Restored(s: State, cfg: Config, node: Node, ds: seq<Dispatch>, height: BlockHeight, v: Txid, op: OutPoint) {
    && op !in s.funding
    && exists i :: 0 <= i < |ds| && Accepted(node, ds[i]) && ds[i].tx.txid == op.txid && ds[i].tx.kind.Speedup?
                   && forall k :: i < k < |ds| ==> !SettlesAt(s, cfg, node, ds, height, v, k)
  }

  // ---------------------------------------------------------------- one settlement, one cascade

  /** Clearing the mark of `u` clears that of `op`. */
  predicate Hits(s: State, u: OutPoint, op: OutPoint) {
    u == op || (op !in s.funding && u !in s.funding && u.txid == op.txid)
  }

  predicate Releases(s: State, us: seq<Utxo>, op: OutPoint) {
    exists i :: 0 <= i < |us| && Hits(s, us[i].op, op)
  }

  lemma ReleasesSplit(s: State, us: seq<Utxo>, op: OutPoint)
    requires us != []
    ensures Releases(s, us, op) <==> Hits(s, us[0].op, op) || Releases(s, us[1..], op)
  {
    hide Hits;
    if i :| 0 <= i < |us| && Hits(s, us[i].op, op) {
      assert i > 0 ==> us[1..][i - 1] == us[i];
    }
    if i :| 0 <= i < |us[1..]| && Hits(s, us[1..][i].op, op) {
      assert us[i + 1] == us[1..][i];
    }
  }

  lemma ClearMarked(s: State, u: OutPoint, op: OutPoint)
    ensures Marked(SetSpent(s, u, false), op) <==> Marked(s, op) && !Hits(s, u, op)
    ensures SetSpent(s, u, false).funding.Keys == s.funding.Keys
  {}

  lemma HitsStable(s: State, s': State, us: seq<Utxo>, op: OutPoint)
    requires s'.funding.Keys == s.funding.Keys
    ensures Releases(s', us, op) == Releases(s, us, op)
  {
    assert forall u :: Hits(s', u, op) == Hits(s, u, op);
    hide Hits;
  }

  lemma {:induction false} ReleaseMarked(s: State, us: seq<Utxo>, op: OutPoint)
    ensures Marked(ReleaseMarks(s, us), op) <==> Marked(s, op) && !Releases(s, us, op)
    ensures ReleaseMarks(s, us).funding.Keys == s.funding.Keys
    decreases |us|
  {
    if us != [] {
      var next := SetSpent(s, us[0].op, false);
      ClearMarked(s, us[0].op, op);
      hide Marked, Hits, SetSpent, Releases;
      ReleaseMarked(next, us[1..], op);
      HitsStable(s, next, us[1..], op);
      ReleasesSplit(s, us, op);
    } else {
      assert !Releases(s, us, op);
    }
  }

  lemma SettleTxMarked(s: State, t: Txid, height: BlockHeight, n: News, op: OutPoint)
    ensures var s' := AddNews(SettleTx(s, t, Failed, height), n); Marked(s', op) == Marked(s, op) && s'.funding == s.funding
  {}

  lemma UnmaskMarked(s: State, p: Txid, mark: Option<Txid>, op: OutPoint)
    ensures Marked(SetReplacedBy(s, p, mark), op) == Marked(s, op) && SetReplacedBy(s, p, mark).funding == s.funding
  {}

  lemma SettleMarked(s: State, d: CoordinatedTx, height: BlockHeight, fundingMissing: bool, op: OutPoint)
    ensures var s' := SettleFailedDispatch(s, d, height, fundingMissing);
      && (Marked(s', op) <==> Marked(s, op) && !Releases(s, d.Claimed(), op))
      && s'.funding.Keys == s.funding.Keys
  {
    hide Releases, SettleTx, SetReplacedBy, CoordinatedTx.Claimed;
    var settled := AddNews(SettleTx(s, d.txid, Failed, height), DispatchErrorNews(d));
    SettleTxMarked(s, d.txid, height, DispatchErrorNews(d), op);
    ReleaseMarked(settled, d.Claimed(), op);
    HitsStable(s, settled, d.Claimed(), op);
    if d.IsRBF() {
      UnmaskMarked(ReleaseMarks(settled, d.Claimed()), d.kind.speedup.predecessor, None, op);
    }
  }

  predicate FallsRelease(s: State, falls: seq<Fall>, op: OutPoint) {
    exists i :: 0 <= i < |falls| && Releases(s, falls[i].tx.Claimed(), op)
  }

  lemma FallsReleaseSplit(s: State, falls: seq<Fall>, op: OutPoint)
    requires falls != []
    ensures FallsRelease(s, falls, op) <==> Releases(s, falls[0].tx.Claimed(), op) || FallsRelease(s, falls[1..], op)
  {
    hide Releases, CoordinatedTx.Claimed;
    if i :| 0 <= i < |falls| && Releases(s, falls[i].tx.Claimed(), op) {
      assert i > 0 ==> falls[1..][i - 1] == falls[i];
    }
    if i :| 0 <= i < |falls[1..]| && Releases(s, falls[1..][i].tx.Claimed(), op) {
      assert falls[i + 1] == falls[1..][i];
    }
  }

  lemma FallsReleaseStable(s: State, s': State, falls: seq<Fall>, op: OutPoint)
    requires s'.funding.Keys == s.funding.Keys
    ensures FallsRelease(s', falls, op) == FallsRelease(s, falls, op)
  {
    forall us ensures Releases(s', us, op) == Releases(s, us, op) {
      HitsStable(s, s', us, op);
    }
    hide Releases;
  }

  lemma {:induction false} ReplayMarked(s: State, falls: seq<Fall>, height: BlockHeight, op: OutPoint)
    ensures Marked(Replay(s, falls, height), op) <==> Marked(s, op) && !FallsRelease(s, falls, op)
    decreases |falls|
  {
    if falls != [] {
      hide Marked, Releases, SettleFailedDispatch, FallsRelease, CoordinatedTx.Claimed;
      var next := SettleFailedDispatch(s, falls[0].tx, height, falls[0].fundingMissing);
      SettleMarked(s, falls[0].tx, height, falls[0].fundingMissing, op);
      ReplayMarked(next, falls[1..], height, op);
      FallsReleaseStable(s, next, falls[1..], op);
      FallsReleaseSplit(s, falls, op);
    }
  }

  /** A waiting speedup the cascade from `root` takes down reserved `op`. */
  ghost predicate ReservedByVictim(s: State, root: Txid, op: OutPoint) {
    exists v :: v != root && v in Pending(s) && Reaches(s, root, v) && Releases(s, s.txs[v].Claimed(), op)
  }

  lemma LaterFallClaims(s: State, tx: CoordinatedTx, height: BlockHeight, fundingMissing: bool, i: nat)
    requires KeysOk(s) && 0 < i < |Trace(s, tx, height, fundingMissing)|
    ensures var f := Trace(s, tx, height, fundingMissing)[i]; f.tx.txid in s.txs && s.txs[f.tx.txid].Claimed() == f.tx.Claimed()
  {
    hide Trace, KeysOk;
    TraceFalls(s, tx, height, fundingMissing);
    assert FallsFrom(s, Trace(s, tx, height, fundingMissing)[i]);
  }

  lemma VictimsRelease(s: State, tx: CoordinatedTx, height: BlockHeight, fundingMissing: bool, op: OutPoint)
    requires KeysOk(s)
    ensures var falls := Trace(s, tx, height, fundingMissing);
            falls != [] && (FallsRelease(s, falls[1..], op) <==> ReservedByVictim(s, tx.txid, op))
  {
    hide Trace, Reaches, KeysOk, Pending, Releases, CoordinatedTx.Claimed, CoordinatedTx.DependsOn;
    var falls := Trace(s, tx, height, fundingMissing);
    TraceStarts(s, tx, height, fundingMissing);
    PendingStored(s);
    if i :| 0 <= i < |falls[1..]| && Releases(s, falls[1..][i].tx.Claimed(), op) {
      assert falls[1..][i] == falls[i + 1];
      LaterFall(s, tx, height, fundingMissing, i + 1);
      LaterFallClaims(s, tx, height, fundingMissing, i + 1);
    }
    if v :| v != tx.txid && v in Pending(s) && Reaches(s, tx.txid, v) && Releases(s, s.txs[v].Claimed(), op) {
      VictimsAreReached(s, tx, height, fundingMissing, v);
      var i :| 0 < i < |falls| && falls[i].tx.txid == v;
      LaterFallClaims(s, tx, height, fundingMissing, i);
      assert falls[1..][i - 1] == falls[i];
    }
  }

  lemma CascadeMarked(s: State, tx: CoordinatedTx, height: BlockHeight, fundingMissing: bool, op: OutPoint)
    requires KeysOk(s)
    ensures Marked(FailAndCascade(s, tx, height, fundingMissing), op) <==>
              Marked(s, op) && !Releases(s, tx.Claimed(), op) && !ReservedByVictim(s, tx.txid, op)
  {
    hide Trace, FailAndCascade, Replay, KeysOk, Marked, Releases, FallsRelease, ReservedByVictim, CoordinatedTx.Claimed;
    var falls := Trace(s, tx, height, fundingMissing);
    CascadeIsReplay(s, tx, height, fundingMissing);
    TraceFalls(s, tx, height, fundingMissing);
    ReplayMarked(s, falls, height, op);
    VictimsRelease(s, tx, height, fundingMissing, op);
    FallsReleaseSplit(s, falls, op);
  }

  // ---------------------------------------------------------------- one outcome

  lemma ChildMarked(s: State, tx: CoordinatedTx, height: BlockHeight, op: OutPoint)
    requires KeysOk(s)
    ensures Marked(SettleFailedChild(s, tx, height), op) <==>
              Marked(s, op) && !Releases(s, tx.Claimed(), op) && !ReservedByVictim(s, tx.txid, op)
  {
    hide FailAndCascade, KeysOk, Releases, ReservedByVictim, CoordinatedTx.Claimed;
    CascadeMarked(s, tx, height, false, op);
  }

  lemma FailingMarked(s: State, cfg: Config, node: Node, d: Dispatch, height: BlockHeight, fee: FeeInfo, op: OutPoint)
    requires KeysOk(s) && FailsRoot(cfg, node, d, height)
    ensures Marked(HandleDispatchResult(s, cfg, node, d, height, fee), op) <==>
              Marked(s, op) && !Releases(s, d.tx.Claimed(), op) && !ReservedByVictim(s, d.tx.txid, op)
  {
    hide HandleDispatchResult, FailsRoot, Accepted, FundingGone, ExternalGone, FailAndCascade, SettleFailedChild, KeysOk;
    hide Marked, Releases, ReservedByVictim, CoordinatedTx.Claimed;
    HandledAs(s, cfg, node, d, height, fee);
    AcceptedDoesNotFail(cfg, node, d, height);
    CascadeMarked(s, d.tx, height, true, op);
    CascadeMarked(s, d.tx, height, false, op);
    ChildMarked(s, d.tx, height, op);
  }

  /** An acceptance writes the mark of its snapshot back; other outcomes that do not fail leave every mark. */
  lemma QuietMarked(s: State, cfg: Config, node: Node, d: Dispatch, height: BlockHeight, fee: FeeInfo, op: OutPoint)
    requires !FailsRoot(cfg, node, d, height)
    ensures Marked(HandleDispatchResult(s, cfg, node, d, height, fee), op)
            == if Accepted(node, d) && op !in s.funding && op.txid == d.tx.txid then
                 d.tx.kind.Speedup? && d.tx.kind.speedup.context.spent
               else Marked(s, op)
  {
    hide HandleDispatchResult, FailsRoot, Accepted, FundingGone, ExternalGone, FailAndCascade, SettleFailedChild, SetReplacedBy;
    HandledAs(s, cfg, node, d, height, fee);
    if d.tx.IsRBF() {
      UnmaskMarked(s, d.tx.kind.speedup.predecessor, Some(d.tx.txid), op);
    }
  }

  // ---------------------------------------------------------------- nobody else reserved it

  lemma ReservedIs(r: CoordinatedTx, op: OutPoint)
    ensures ReservedBy(r, op) <==> op in Ops(r.Claimed())
    ensures ReservedBy(r, op) ==> r.kind.Speedup?
  {
    assert OwnInputs(r) == r.Claimed();
  }

  lemma OneReserver(s: State, x: Txid, v: Txid, op: OutPoint)
    requires Inv(s) && Live(s, x) && Live(s, v) && x != v && Claims(s, v, op)
    ensures !Claims(s, x, op)
  {
    InvParts(s);
    assert SharingOk(s) && InheritOk(s);
    hide Inv, LineageOk, ListOk, QueueOk, LifecycleOk, ParentsOk, ReservedOk, KeysOk;
    if Claims(s, x, op) {
      ClaimsAreInputs(s, x, op);
      ClaimsAreInputs(s, v, op);
    }
  }

  /** What clears the mark of a listed speedup's change is a reservation of that change itself. */
  lemma HitsChange(s: State, x: Txid, v: Txid, u: OutPoint, op: OutPoint)
    requires Inv(s) && Live(s, x) && Live(s, v) && x != v && Claims(s, x, u) && Claims(s, v, op) && Hits(s, u, op)
    ensures op !in s.funding && !(op.txid in s.speedups && op.txid in s.txs)
  {
    assert ChangeOk(s);
    InvParts(s);
    ClaimsAreInputs(s, x, u);
    ClaimsAreInputs(s, v, op);
    hide Inv, KeysOk, ListOk, LineageOk, RbfOk, QueueOk, InputsOk, LifecycleOk, ParentsOk, ReservedOk;
    if u == op {
      OneReserver(s, x, v, op);
    } else {
      assert Uses(s, x, u) && Uses(s, v, op);
      if op.txid in s.speedups && op.txid in s.txs {
        OneReserver(s, x, v, op);
      }
    }
  }

  // ---------------------------------------------------------------- one outcome after the others

  lemma SettlesSame(s: State, cfg: Config, node: Node, done: seq<Dispatch>, d: Dispatch, height: BlockHeight, v: Txid, k: nat)
    requires k < |done|
    ensures SettlesAt(s, cfg, node, done + [d], height, v, k) <==> SettlesAt(s, cfg, node, done, height, v, k)
  {
    var more := done + [d];
    assert forall i :: 0 <= i < |done| ==> more[i] == done[i];
    hide FailsRoot, Reaches;
    assert forall j :: 0 <= j <= k ==> VictimAt(s, cfg, node, more, height, v, j) == VictimAt(s, cfg, node, done, height, v, j);
  }

  /** The next outcome settles `v`. */
  ghost predicate SettlesNow(s: State, cfg: Config, node: Node, done: seq<Dispatch>, d: Dispatch, height: BlockHeight, v: Txid) {
    && FailsRoot(cfg, node, d, height)
    && (|| d.tx.txid == v
        || (Reaches(s, d.tx.txid, v) && !OwnFailed(cfg, node, done, height, v) && !IsVictim(s, cfg, node, done, height, v)))
  }

  lemma SettlesNowIs(s: State, cfg: Config, node: Node, done: seq<Dispatch>, d: Dispatch, height: BlockHeight, v: Txid)
    ensures SettlesAt(s, cfg, node, done + [d], height, v, |done|) <==> SettlesNow(s, cfg, node, done, d, height, v)
  {
    var more := done + [d];
    assert forall i :: 0 <= i < |done| ==> more[i] == done[i];
    assert more[|done|] == d;
    hide FailsRoot, Reaches;
    assert forall j :: 0 <= j < |done| ==> VictimAt(s, cfg, node, more, height, v, j) == VictimAt(s, cfg, node, done, height, v, j);
    assert IsVictim(s, cfg, node, done, height, v) <==> exists j :: 0 <= j < |done| && VictimAt(s, cfg, node, done, height, v, j);
    assert OwnFailed(cfg, node, done, height, v)
           <==> exists i :: 0 <= i < |done| && FailsRoot(cfg, node, more[i], height) && more[i].tx.txid == v;
  }

  lemma RestoredGrows(s: State, cfg: Config, node: Node, done: seq<Dispatch>, d: Dispatch, height: BlockHeight, v: Txid, op: OutPoint)
    ensures Restored(s, cfg, node, done + [d], height, v, op) <==>
              || (Restored(s, cfg, node, done, height, v, op) && !SettlesNow(s, cfg, node, done, d, height, v))
              || (op !in s.funding && Accepted(node, d) && d.tx.txid == op.txid && d.tx.kind.Speedup?)
  {
    var more := done + [d];
    assert forall i :: 0 <= i < |done| ==> more[i] == done[i];
    assert more[|done|] == d;
    SettlesNowIs(s, cfg, node, done, d, height, v);
    forall k | 0 <= k < |done|
      ensures SettlesAt(s, cfg, node, more, height, v, k) <==> SettlesAt(s, cfg, node, done, height, v, k)
    {
      SettlesSame(s, cfg, node, done, d, height, v, k);
    }
    hide SettlesAt, SettlesNow, Accepted;
    if Restored(s, cfg, node, done, height, v, op) && !SettlesNow(s, cfg, node, done, d, height, v) {
      var i :| 0 <= i < |done| && Accepted(node, done[i]) && done[i].tx.txid == op.txid && done[i].tx.kind.Speedup?
               && forall k :: i < k < |done| ==> !SettlesAt(s, cfg, node, done, height, v, k);
      assert more[i] == done[i];
    }
    if Restored(s, cfg, node, more, height, v, op) {
      var i :| 0 <= i < |more| && Accepted(node, more[i]) && more[i].tx.txid == op.txid && more[i].tx.kind.Speedup?
               && forall k :: i < k < |more| ==> !SettlesAt(s, cfg, node, more, height, v, k);
      if i < |done| {
        assert !SettlesAt(s, cfg, node, more, height, v, |done|);
        assert forall k :: i < k < |done| ==> !SettlesAt(s, cfg, node, done, height, v, k);
        assert done[i] == more[i];
      }
    }
  }

  /** A speedup that waited when the batch was taken and reserved `op`. */
  ghost predicate Reserver(s: State, v: Txid, op: OutPoint) {
    IsWaiting(s, v) && ReservedBy(s.txs[v], op)
  }

  lemma ReserverClaims(s: State, v: Txid, op: OutPoint)
    requires Reserver(s, v, op)
    ensures Live(s, v) && Claims(s, v, op)
  {
    ReservedIs(s.txs[v], op);
  }

  lemma ReleasesHit(s: State, us: seq<Utxo>, op: OutPoint)
    ensures op in Ops(us) ==> Releases(s, us, op)
  {
    if op in Ops(us) {
      var i :| 0 <= i < |us| && us[i].op == op;
      assert Hits(s, us[i].op, op);
    }
  }

  lemma SameClaims(s0: State, s: State, x: Txid)
    requires Evolves(s0, s) && x in s0.txs
    ensures x in s.txs && s.txs[x].Claimed() == s0.txs[x].Claimed() && s.funding.Keys == s0.funding.Keys
  {
    assert SameShape(s0.txs[x], s.txs[x]);
  }

  /** An outcome that settles `v` clears the mark. */
  lemma SettlingReleases(s0: State, s: State, cfg: Config, node: Node, done: seq<Dispatch>, d: Dispatch, all: seq<Dispatch>,
                         height: BlockHeight, v: Txid, op: OutPoint)
    requires Tracks(s0, s, cfg, node, done, height) && ConsistentOutcomes(s0, cfg, node, all, height) && done + [d] <= all
    requires Reserver(s0, v, op) && (d.tx.txid == v ==> d.tx == s0.txs[v])
    requires SettlesNow(s0, cfg, node, done, d, height, v)
    ensures Releases(s, d.tx.Claimed(), op) || ReservedByVictim(s, d.tx.txid, op)
  {
    hide Tracks, ConsistentOutcomes, FailsRoot, Reaches, OwnFailed, IsVictim, Evolves, Pending, Releases, CoordinatedTx.Claimed;
    hide ReservedBy;
    TracksEvolves(s0, s, cfg, node, done, height);
    ReserverClaims(s0, v, op);
    ReservedIs(s0.txs[v], op);
    SameClaims(s0, s, v);
    ReleasesHit(s, s0.txs[v].Claimed(), op);
    if d.tx.txid != v {
      FallsNow(s0, s, cfg, node, done, d, all, height, v);
      assert v in Pending(s) && Reaches(s, d.tx.txid, v);
    }
  }

  lemma OpsOf(us: seq<Utxo>, i: nat)
    requires i < |us|
    ensures us[i].op in Ops(us)
  {}

  /** Another waiting speedup does not touch the mark of a change that was written back. */
  lemma OthersKeepMark(s0: State, s: State, x: Txid, us: seq<Utxo>, v: Txid, op: OutPoint)
    requires Inv(s0) && s.funding.Keys == s0.funding.Keys && Live(s0, x) && Reserver(s0, v, op) && x != v
    requires us == s0.txs[x].Claimed() && op !in s0.funding && op.txid in s0.speedups && op.txid in s0.txs
    ensures !Releases(s, us, op)
  {
    ReserverClaims(s0, v, op);
    hide Inv, CoordinatedTx.Claimed, Hits, Reserver;
    HitsStable(s0, s, us, op);
    if Releases(s0, us, op) {
      var i :| 0 <= i < |us| && Hits(s0, us[i].op, op);
      OpsOf(us, i);
      assert Claims(s0, x, us[i].op);
      HitsChange(s0, x, v, us[i].op, op);
    }
  }

  // ---------------------------------------------------------------- the whole batch

  /** How the mark of `op` stands once `v`, which reserved it, has been settled by the outcomes `done`. */
  ghost predicate MarkTracks(s0: State, s: State, cfg: Config, node: Node, done: seq<Dispatch>, height: BlockHeight, v: Txid,
                             op: OutPoint)
  {
    Felled(s0, cfg, node, done, height, v) ==> (Marked(s, op) <==> Restored(s0, cfg, node, done, height, v, op))
  }

  /** Every waiting speedup that an outcome settles, other than `v`, leaves a mark that was written back. */
  lemma FailingKeepsMark(s0: State, s: State, cfg: Config, node: Node, done: seq<Dispatch>, d: Dispatch, height: BlockHeight, v: Txid,
                         op: OutPoint)
    requires Inv(s0) && Tracks(s0, s, cfg, node, done, height) && IsWaiting(s0, d.tx.txid) && d.tx == s0.txs[d.tx.txid]
    requires Reserver(s0, v, op) && d.tx.txid != v && v !in Pending(s)
    requires op !in s0.funding && op.txid in s0.speedups && op.txid in s0.txs
    ensures !Releases(s, d.tx.Claimed(), op) && !ReservedByVictim(s, d.tx.txid, op)
  {
    TracksEvolves(s0, s, cfg, node, done, height);
    hide Inv, Evolves, Releases, Reaches, Reserver, CoordinatedTx.Claimed, Marked, Taken, Felled;
    SameClaims(s0, s, d.tx.txid);
    if d.tx.kind.Speedup? {
      OthersKeepMark(s0, s, d.tx.txid, d.tx.Claimed(), v, op);
    } else {
      ClientClaimsNothing(s, d.tx, op);
    }
    forall x | x in Pending(s) && x != v ensures x in s.txs && !Releases(s, s.txs[x].Claimed(), op) {
      PendingWaits(s, x);
      assert IsWaiting(s0, x);
      SameClaims(s0, s, x);
      SameKind(s0, s, x);
      OthersKeepMark(s0, s, x, s0.txs[x].Claimed(), v, op);
    }
  }

  lemma ClientClaimsNothing(s: State, d: CoordinatedTx, op: OutPoint)
    requires !d.kind.Speedup?
    ensures !Releases(s, d.Claimed(), op)
  {}

  lemma SameKind(s0: State, s: State, x: Txid)
    requires Evolves(s0, s) && IsSpeedup(s, x)
    ensures IsSpeedup(s0, x)
  {
    assert SameShape(s0.txs[x], s.txs[x]);
  }

  lemma RestoredProducer(s0: State, cfg: Config, node: Node, done: seq<Dispatch>, height: BlockHeight, v: Txid, op: OutPoint)
    requires Inv(s0) && forall i :: 0 <= i < |done| ==> IsWaiting(s0, done[i].tx.txid) && done[i].tx == s0.txs[done[i].tx.txid]
    requires Restored(s0, cfg, node, done, height, v, op)
    ensures op !in s0.funding && op.txid in s0.speedups && op.txid in s0.txs
  {
    InvParts(s0);
    hide Inv, KeysOk, LineageOk, RbfOk, QueueOk, InputsOk, LifecycleOk, ParentsOk, ReservedOk, SettlesAt, Accepted;
    var i :| 0 <= i < |done| && Accepted(node, done[i]) && done[i].tx.txid == op.txid && done[i].tx.kind.Speedup?;
    assert IsSpeedup(s0, op.txid) && !s0.txs[op.txid].state.Finalized?;
  }

  /** The mark a stored snapshot carries: the reservation of `v` set it. */
  lemma SnapshotIsMarked(s0: State, d: CoordinatedTx, v: Txid, op: OutPoint)
    requires Inv(s0) && IsWaiting(s0, d.txid) && d == s0.txs[d.txid] && d.kind.Speedup? && Reserver(s0, v, op)
    requires op !in s0.funding && op.txid == d.txid
    ensures d.kind.speedup.context.spent
  {
    ReserverClaims(s0, v, op);
    InvParts(s0);
    hide Inv, KeysOk, LineageOk, RbfOk, QueueOk, LifecycleOk, ParentsOk, Reserver;
    ClaimsAreInputs(s0, v, op);
    assert Reserved(s0, op);
    assert IsSpeedup(s0, op.txid) && !s0.txs[op.txid].state.Finalized?;
  }

  lemma NewlyFelledSettles(s: State, cfg: Config, node: Node, done: seq<Dispatch>, d: Dispatch, height: BlockHeight, v: Txid)
    requires Felled(s, cfg, node, done + [d], height, v) && !SettlesNow(s, cfg, node, done, d, height, v)
    ensures Felled(s, cfg, node, done, height, v)
  {
    FelledGrows(s, cfg, node, done, d, height, v);
    OwnFailedIsFelled(s, cfg, node, done, height, v);
    hide FailsRoot, Reaches;
    if j :| VictimAt(s, cfg, node, done, height, v, j) {
      assert Felled(s, cfg, node, done, height, v);
    }
  }

  lemma MarkNext(s0: State, s: State, cfg: Config, node: Node, done: seq<Dispatch>, d: Dispatch, all: seq<Dispatch>,
                 height: BlockHeight, fee: FeeInfo, v: Txid, op: OutPoint)
    requires Inv(s0) && Tracks(s0, s, cfg, node, done, height) && ConsistentOutcomes(s0, cfg, node, all, height) && KeysOk(s)
    requires done + [d] <= all && IsWaiting(s0, d.tx.txid) && d.tx == s0.txs[d.tx.txid]
    requires forall i :: 0 <= i < |done| ==> IsWaiting(s0, done[i].tx.txid) && done[i].tx == s0.txs[done[i].tx.txid]
    requires Reserver(s0, v, op) && !Taken(node, done, v) && MarkTracks(s0, s, cfg, node, done, height, v, op)
    ensures MarkTracks(s0, HandleDispatchResult(s, cfg, node, d, height, fee), cfg, node, done + [d], height, v, op)
  {
    hide Inv, KeysOk, ConsistentOutcomes, HandleDispatchResult, FailsRoot, Accepted, Marked, Restored, SettlesNow, Releases;
    hide ReservedByVictim, Felled, Taken, Evolves, CoordinatedTx.Claimed, ReservedBy;
    RestoredGrows(s0, cfg, node, done, d, height, v, op);
    AcceptedDoesNotFail(cfg, node, d, height);
    TracksEvolves(s0, s, cfg, node, done, height);
    SameClaims(s0, s, v);
    if !FailsRoot(cfg, node, d, height) {
      QuietMarked(s, cfg, node, d, height, fee, op);
      FelledGrows(s0, cfg, node, done, d, height, v);
      NotSettling(s0, cfg, node, done, d, height, v);
      if Accepted(node, d) && op !in s0.funding && op.txid == d.tx.txid && d.tx.kind.Speedup? {
        SnapshotIsMarked(s0, d.tx, v, op);
      } else if Accepted(node, d) && op !in s0.funding && op.txid == d.tx.txid {
        ClientNotMarked(s0, s, cfg, node, done, height, d.tx, op);
      }
    } else {
      FailingMarked(s, cfg, node, d, height, fee, op);
      if SettlesNow(s0, cfg, node, done, d, height, v) {
        SettlingReleases(s0, s, cfg, node, done, d, all, height, v, op);
      } else if Felled(s0, cfg, node, done + [d], height, v) {
        NewlyFelledSettles(s0, cfg, node, done, d, height, v);
        if Restored(s0, cfg, node, done, height, v, op) {
          RestoredProducer(s0, cfg, node, done, height, v, op);
          NotSettlingIsOther(s0, cfg, node, done, d, height, v);
          FelledIsNotPending(s0, s, cfg, node, done, height, v);
          FailingKeepsMark(s0, s, cfg, node, done, d, height, v, op);
        }
      }
    }
  }

  lemma NotSettling(s: State, cfg: Config, node: Node, done: seq<Dispatch>, d: Dispatch, height: BlockHeight, v: Txid)
    requires !FailsRoot(cfg, node, d, height)
    ensures !SettlesNow(s, cfg, node, done, d, height, v)
  {}

  lemma NotSettlingIsOther(s: State, cfg: Config, node: Node, done: seq<Dispatch>, d: Dispatch, height: BlockHeight, v: Txid)
    requires FailsRoot(cfg, node, d, height) && !SettlesNow(s, cfg, node, done, d, height, v)
    ensures d.tx.txid != v
  {}

  lemma FelledIsNotPending(s0: State, s: State, cfg: Config, node: Node, done: seq<Dispatch>, height: BlockHeight, v: Txid)
    requires Tracks(s0, s, cfg, node, done, height) && IsWaiting(s0, v) && !Taken(node, done, v) && Felled(s0, cfg, node, done, height, v)
    ensures v !in Pending(s)
  {
    hide Evolves, Taken, Felled;
  }

  /** A client record has no mark. */
  lemma ClientNotMarked(s0: State, s: State, cfg: Config, node: Node, done: seq<Dispatch>, height: BlockHeight, d: CoordinatedTx,
                        op: OutPoint)
    requires Tracks(s0, s, cfg, node, done, height) && d.txid in s0.txs && d == s0.txs[d.txid] && !d.kind.Speedup?
    requires op !in s0.funding && op.txid == d.txid
    ensures !Marked(s, op)
  {
    TracksEvolves(s0, s, cfg, node, done, height);
    assert SameShape(s0.txs[d.txid], s.txs[d.txid]);
  }

  lemma {:induction false} BatchMarks(s0: State, s: State, cfg: Config, node: Node, done: seq<Dispatch>, rest: seq<Dispatch>,
                                      height: BlockHeight, fee: CoordinatedTx -> FeeInfo, v: Txid, op: OutPoint)
    requires Inv(s0) && Inv(s) && Tracks(s0, s, cfg, node, done, height) && ConsistentOutcomes(s0, cfg, node, done + rest, height)
    requires Distinct(done + rest) && !Taken(node, done + rest, v)
    requires forall i :: 0 <= i < |rest| ==> BatchItem(s, rest[i].tx)
    requires forall i :: 0 <= i < |done + rest| ==>
               IsWaiting(s0, (done + rest)[i].tx.txid) && (done + rest)[i].tx == s0.txs[(done + rest)[i].tx.txid]
    requires Reserver(s0, v, op) && MarkTracks(s0, s, cfg, node, done, height, v, op)
    ensures MarkTracks(s0, HandleAll(s, cfg, node, rest, height, fee), cfg, node, done + rest, height, v, op)
    decreases |rest|
  {
    hide Inv, Tracks, ConsistentOutcomes, HandleDispatchResult, BatchItem, Handles, Evolves, KeysOk, Accepted, FailsRoot, MarkTracks;
    hide Reserver, Taken;
    if rest == [] {
      assert done + rest == done;
    } else {
      var d, all := rest[0], done + rest;
      var next := HandleDispatchResult(s, cfg, node, d, height, fee(d.tx));
      assert done + [d] <= all by { assert rest == [d] + rest[1..]; }
      assert all[|done|] == d;
      assert forall i :: 0 <= i < |done| ==> all[i] == done[i];
      InvKeyed(s);
      NextWaits(s0, s, cfg, node, done, d, all, height);
      ItemHandles(s, cfg, node, d, height, fee(d.tx));
      HandlesEvolves(s, next, d.tx.txid);
      TracksNext(s0, s, cfg, node, done, d, all, height, fee(d.tx));
      assert done + [d] + rest[1..] == all;
      forall i | 0 <= i < |rest[1..]| ensures BatchItem(next, rest[1..][i].tx) {
        assert rest[1..][i] == rest[i + 1];
        assert all[|done| + i + 1] == rest[i + 1];
        ItemAdvances(s, next, d.tx.txid, rest[i + 1].tx);
      }
      TakenInPart(node, done, all, v);
      MarkNext(s0, s, cfg, node, done, d, all, height, fee(d.tx), v, op);
      BatchMarks(s0, next, cfg, node, done + [d], rest[1..], height, fee, v, op);
    }
  }

  lemma TakenInPart(node: Node, done: seq<Dispatch>, all: seq<Dispatch>, v: Txid)
    requires done <= all && !Taken(node, all, v)
    ensures !Taken(node, done, v)
  {
    hide Accepted;
    assert forall i :: 0 <= i < |done| ==> all[i] == done[i];
  }

  lemma MarksStart(s: State, cfg: Config, node: Node, height: BlockHeight, v: Txid, op: OutPoint)
    ensures MarkTracks(s, s, cfg, node, [], height, v, op)
  {}

  // ---------------------------------------------------------------- steps 3 and 4

  lemma SpeedupMarks(s: State, cfg: Config, node: Node, retryReady: bool, height: BlockHeight, v: Txid, op: OutPoint)
    requires Inv(s) && ConsistentNode(s, cfg, node, retryReady, height) && Reserver(s, v, op)
    requires !Taken(node, SpeedupOutcomes(s, cfg, node, retryReady), v)
    ensures MarkTracks(s, DispatchPendingSpeedups(s, cfg, node, retryReady, height), cfg, node,
                       SpeedupOutcomes(s, cfg, node, retryReady), height, v, op)
  {
    hide Inv, MayFall, Snapshot, ClientSnapshot, Tracks, ConsistentOutcomes, DispatchAll, SpeedupBatch, HandleAll, MarkTracks;
    hide Reserver, Taken;
    var ds := SpeedupOutcomes(s, cfg, node, retryReady);
    SpeedupItems(s, cfg, node, retryReady);
    TracksStart(s, cfg, node, height);
    MarksStart(s, cfg, node, height, v, op);
    forall i | 0 <= i < |ds| ensures ds[i].tx.txid in s.txs && ds[i].tx == s.txs[ds[i].tx.txid] {
      BatchIsWaiting(s, retryReady, ds[i].tx);
    }
    assert [] + ds == ds;
    BatchMarks(s, s, cfg, node, [], ds, height, KeepFee, v, op);
  }

  /** A speedup that fails in step 4 leaves each of its own reservations free, except exactly when the speedup whose change it is was
      accepted in the same batch after the last outcome that settled it: the acceptance writes the snapshot back that still has the
      mark. */
  lemma ReleasedExactlyWhen(s: State, cfg: Config, e: Event, v: Txid, op: OutPoint)
    requires Inv(s) && Admissible(s, cfg, e) && e.DispatchSpeedupsEvent? && IsWaiting(s, v) && ReservedBy(s.txs[v], op)
    requires Felled(s, cfg, e.node, Outcomes(s, cfg, e), e.height, v)
    ensures Marked(Step(s, cfg, e), op) <==> Restored(s, cfg, e.node, Outcomes(s, cfg, e), e.height, v, op)
  {
    hide Inv, ConsistentNode, SpeedupOutcomes, DispatchPendingSpeedups, Felled, Taken, Marked, Restored, ReservedBy, Tracks;
    hide ConsistentOutcomes, Distinct;
    EventTracks(s, cfg, e);
    EventConsistent(s, cfg, e);
    TakenIsNotFelled(s, cfg, e.node, Outcomes(s, cfg, e), e.height, v);
    SpeedupMarks(s, cfg, e.node, e.retryReady, e.height, v, op);
  }
}

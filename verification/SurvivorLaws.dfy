/** Survivor rebuild (src/engines/common.rs:359-429): what a failing first CPFP leaves in the pending list. */
module SurvivorLaws {
  import opened Types
  import opened States
  import opened Funding
  import opened Failures
  import opened Dispatching
  import opened Invariants
  import opened Evolution
  import opened FailureLaws
  import opened CascadeLaws
  import opened DispatchLaws

  predicate Needs(s: State, t: Txid) {
    t in s.txs && s.txs[t].kind.NeedsSpeedup?
  }

  /** `t` feeds a non-funding input of `tx` and has not settled Failed. */
  predicate Survives(s: State, tx: CoordinatedTx, t: Txid) {
    (exists i :: 0 <= i < |tx.NonFundingInputs()| && tx.NonFundingInputs()[i].txid == t)
    && !(t in s.txs && s.txs[t].state.Failed?)
  }

  /** A waiting speedup the cascade from `root` takes down covers `t`. */
  ghost predicate CoveredByVictim(s: State, root: Txid, t: Txid) {
    exists d :: d != root && d in Pending(s) && Reaches(s, root, d) && t in s.txs[d].Parents()
  }

  // ---------------------------------------------------------------- the pending list only grows at the front

  ghost predicate PrependedTo(before: seq<Txid>, after: seq<Txid>) {
    |before| <= |after| && after[|after| - |before|..] == before
  }

  lemma PrependedTransitive(a: seq<Txid>, b: seq<Txid>, c: seq<Txid>)
    requires PrependedTo(a, b) && PrependedTo(b, c)
    ensures PrependedTo(a, c)
  {
    assert c[|c| - |a|..] == c[|c| - |b|..][|b| - |a|..];
  }

  lemma PrependPrepends(s: State, ts: seq<Txid>)
    ensures PrependedTo(s.psp, PrependPending(s, ts).psp)
    ensures forall t :: t in PrependPending(s, ts).psp <==> t in s.psp || t in ts
  {}

  lemma ReleaseKeepsPsp(s: State, d: CoordinatedTx)
    ensures ReleaseClaims(s, d).psp == s.psp
  {
    ReleaseClaimsFrame(s, d);
  }

  lemma EvolvedNeeds(s: State, s': State)
    requires Evolves(s, s')
    ensures forall t :: Needs(s', t) == Needs(s, t)
  {
    assert forall t :: t in s.txs ==> SameShape(s.txs[t], s'.txs[t]);
  }

  lemma SettlePsp(s: State, d: CoordinatedTx, height: BlockHeight, fundingMissing: bool)
    ensures var s' := SettleFailedDispatch(s, d, height, fundingMissing);
      && PrependedTo(s.psp, s'.psp)
      && (forall t :: t in s'.psp <==> t in s.psp || (fundingMissing && t in d.Parents() && Needs(s, t)))
  {
    var failed := SettleTx(s, d.txid, Failed, height);
    var settled := AddNews(failed, DispatchErrorNews(d));
    var released := ReleaseClaims(settled, d);
    assert failed.psp == s.psp;
    hide SettleTx, ReleaseClaims, Evolves, SameShape;
    ReleaseKeepsPsp(settled, d);
    SettleTxEvolves(s, d.txid, height);
    ReleaseClaimsFrame(settled, d);
    EvolvedNeeds(s, failed);
    EvolvedNeeds(settled, released);
    PrependPrepends(released, StillNeedSpeedup(released, d.Parents()));
  }

  /** Some settlement of `falls` re-queues `t`. */
  predicate Requeues(falls: seq<Fall>, t: Txid) {
    exists i :: 0 <= i < |falls| && falls[i].fundingMissing && t in falls[i].tx.Parents()
  }

  lemma RequeuesSplit(falls: seq<Fall>, t: Txid)
    requires falls != []
    ensures Requeues(falls, t) <==> (falls[0].fundingMissing && t in falls[0].tx.Parents()) || Requeues(falls[1..], t)
  {
    if i :| 0 <= i < |falls[1..]| && falls[1..][i].fundingMissing && t in falls[1..][i].tx.Parents() {
      assert falls[i + 1] == falls[1..][i];
    }
    if i :| 0 <= i < |falls| && falls[i].fundingMissing && t in falls[i].tx.Parents() {
      assert i > 0 ==> falls[1..][i - 1] == falls[i];
    }
  }

  lemma {:induction false} ReplayPsp(s: State, falls: seq<Fall>, height: BlockHeight, t: Txid)
    ensures var s' := Replay(s, falls, height);
            PrependedTo(s.psp, s'.psp) && (t in s'.psp <==> t in s.psp || (Needs(s, t) && Requeues(falls, t)))
    decreases |falls|
  {
    if falls != [] {
      hide SettleFailedDispatch, Evolves, Needs, PrependedTo, Requeues;
      var next := SettleFailedDispatch(s, falls[0].tx, height, falls[0].fundingMissing);
      SettlePsp(s, falls[0].tx, height, falls[0].fundingMissing);
      SettleEvolves(s, falls[0].tx, height, falls[0].fundingMissing);
      EvolvedNeeds(s, next);
      ReplayPsp(next, falls[1..], height, t);
      PrependedTransitive(s.psp, next.psp, Replay(s, falls, height).psp);
      RequeuesSplit(falls, t);
    }
  }

  // ---------------------------------------------------------------- who falls

  lemma {:induction false} ReplayFails(s: State, falls: seq<Fall>, height: BlockHeight, i: nat)
    requires i < |falls| && falls[i].tx.txid in s.txs && s.txs[falls[i].tx.txid].state.CanTransitionTo(Failed)
    ensures falls[i].tx.txid in Replay(s, falls, height).txs
    ensures Replay(s, falls, height).txs[falls[i].tx.txid].state.Failed?
    decreases |falls|
  {
    var t := falls[i].tx.txid;
    var next := SettleFailedDispatch(s, falls[0].tx, height, falls[0].fundingMissing);
    SettleStates(s, falls[0].tx, height, falls[0].fundingMissing, t);
    hide SettleFailedDispatch;
    if i == 0 {
      ReplayStates(next, falls[1..], height, t);
    } else {
      assert falls[1..][i - 1] == falls[i];
      ReplayFails(next, falls[1..], height, i - 1);
    }
  }

  /** Apart from the root the cascade settles exactly the waiting speedups reached from it. */
  lemma VictimsAreReached(s: State, tx: CoordinatedTx, height: BlockHeight, fundingMissing: bool, d: Txid)
    requires KeysOk(s) && d in Pending(s) && d != tx.txid
    ensures Reaches(s, tx.txid, d) <==>
              exists i :: 0 < i < |Trace(s, tx, height, fundingMissing)| && Trace(s, tx, height, fundingMissing)[i].tx.txid == d
  {
    var falls := Trace(s, tx, height, fundingMissing);
    CascadeIsClosure(s, tx, height, fundingMissing, d);
    CascadeIsReplay(s, tx, height, fundingMissing);
    TraceFalls(s, tx, height, fundingMissing);
    hide Trace, FailAndCascade, Reaches, KeysOk;
    if i :| 0 < i < |falls| && falls[i].tx.txid == d {
      ReplayFails(s, falls, height, i);
    }
    if Reaches(s, tx.txid, d) {
      ReplayStates(s, falls, height, d);
    }
  }

  lemma FallParents(s: State, f: Fall)
    requires FallsFrom(s, f)
    ensures f.tx.txid in s.txs && s.txs[f.tx.txid].Parents() == f.tx.Parents() && f.tx.txid in Pending(s)
  {}

  lemma {:induction false} RootFallsOnce(s: State, tx: CoordinatedTx, height: BlockHeight, fundingMissing: bool, i: nat)
    requires KeysOk(s) && 0 < i < |Trace(s, tx, height, fundingMissing)|
    ensures Trace(s, tx, height, fundingMissing)[i].tx.txid != tx.txid
  {
    var settled := SettleFailedDispatch(s, tx, height, fundingMissing);
    var ds := Victims(settled, SpeedupRecords(settled), tx.txid);
    SettleShrinksPending(s, tx, height, fundingMissing);
    SettleEvolves(s, tx, height, fundingMissing);
    EvolvesKeepsKeys(s, settled);
    EvolvesReflexive(settled);
    forall d | d in ds ensures Matches(settled, d) && d.txid in Pending(settled) {
      VictimsMatch(settled, tx.txid, d);
    }
    TraceOverFalls(settled, settled, ds, height);
    assert Trace(s, tx, height, fundingMissing)[i] == TraceOver(settled, ds, height)[i - 1];
    assert FallsFrom(settled, TraceOver(settled, ds, height)[i - 1]);
  }

  /** A settlement of the cascade after the root's is that of a victim, with the parents it has in the store. */
  lemma LaterFall(s: State, tx: CoordinatedTx, height: BlockHeight, fundingMissing: bool, i: nat)
    requires KeysOk(s) && 0 < i < |Trace(s, tx, height, fundingMissing)|
    ensures var f := Trace(s, tx, height, fundingMissing)[i];
      && f.fundingMissing && f.tx.txid != tx.txid && f.tx.txid in Pending(s) && f.tx.txid in s.txs
      && s.txs[f.tx.txid].Parents() == f.tx.Parents()
      && Reaches(s, tx.txid, f.tx.txid)
  {
    hide Trace, Reaches, KeysOk, Pending;
    TraceFalls(s, tx, height, fundingMissing);
    var f := Trace(s, tx, height, fundingMissing)[i];
    assert FallsFrom(s, f);
    FallParents(s, f);
    RootFallsOnce(s, tx, height, fundingMissing, i);
    VictimsAreReached(s, tx, height, fundingMissing, f.tx.txid);
  }

  lemma TraceStarts(s: State, tx: CoordinatedTx, height: BlockHeight, fundingMissing: bool)
    ensures Trace(s, tx, height, fundingMissing) != []
  {}

  /** Apart from the root, the settlements of a cascade re-queue exactly what its victims cover. */
  lemma VictimsRequeue(s: State, tx: CoordinatedTx, height: BlockHeight, fundingMissing: bool, t: Txid)
    requires KeysOk(s)
    ensures var falls := Trace(s, tx, height, fundingMissing);
            falls != [] && (Requeues(falls[1..], t) <==> CoveredByVictim(s, tx.txid, t))
  {
    hide Trace, Reaches, KeysOk, Pending, CoordinatedTx.Parents, CoordinatedTx.DependsOn;
    var falls := Trace(s, tx, height, fundingMissing);
    TraceStarts(s, tx, height, fundingMissing);
    PendingStored(s);
    if i :| 0 <= i < |falls[1..]| && falls[1..][i].fundingMissing && t in falls[1..][i].tx.Parents() {
      assert falls[1..][i] == falls[i + 1];
      LaterFall(s, tx, height, fundingMissing, i + 1);
    }
    if d :| d != tx.txid && d in Pending(s) && Reaches(s, tx.txid, d) && t in s.txs[d].Parents() {
      VictimsAreReached(s, tx, height, fundingMissing, d);
      var i :| 0 < i < |falls| && falls[i].tx.txid == d;
      LaterFall(s, tx, height, fundingMissing, i);
      assert falls[1..][i - 1] == falls[i];
    }
  }

  /** Content of the pending list after a cascade: the root re-queues its own parents only when its funding is missing, every
      victim re-queues its parents. */
  lemma CascadePsp(s: State, tx: CoordinatedTx, height: BlockHeight, fundingMissing: bool, t: Txid)
    requires KeysOk(s)
    ensures var s' := FailAndCascade(s, tx, height, fundingMissing);
      && PrependedTo(s.psp, s'.psp)
      && (t in s'.psp <==>
            t in s.psp || (Needs(s, t) && ((fundingMissing && t in tx.Parents()) || CoveredByVictim(s, tx.txid, t))))
  {
    hide Trace, FailAndCascade, Replay, CoveredByVictim, KeysOk, Needs, PrependedTo, Requeues;
    var falls := Trace(s, tx, height, fundingMissing);
    CascadeIsReplay(s, tx, height, fundingMissing);
    TraceFalls(s, tx, height, fundingMissing);
    ReplayPsp(s, falls, height, t);
    VictimsRequeue(s, tx, height, fundingMissing, t);
    RequeuesSplit(falls, t);
  }

  // ---------------------------------------------------------------- the theorem

  /** What was claimed is free again, however far the cascade went on. */
  lemma RootRests(s: State, tx: CoordinatedTx, height: BlockHeight, fundingMissing: bool)
    ensures AtRest(FailAndCascade(s, tx, height, fundingMissing), tx, height, fundingMissing)
  {
    var falls := Trace(s, tx, height, fundingMissing);
    var next := SettleFailedDispatch(s, tx, height, fundingMissing);
    CascadeIsReplay(s, tx, height, fundingMissing);
    assert falls[0] == Fall(tx, fundingMissing);
    SettleRests(s, tx, height, fundingMissing);
    hide Quiets, AtRest, SettleFailedDispatch, FailAndCascade, Trace;
    ReplayQuiets(next, falls[1..], height);
    QuietKeepsRest(next, FailAndCascade(s, tx, height, fundingMissing), tx, height, fundingMissing);
  }

  /** Exactly who is pending after a first CPFP failed: who was pending before, the covered parents that have not
      settled Failed, and the parents covered by speedups its cascade took down. */
  lemma SurvivorsQueued(s: State, tx: CoordinatedTx, height: BlockHeight, t: Txid)
    requires KeysOk(s)
    ensures var s' := RebuildSurvivors(s, tx, height);
      && PrependedTo(s.psp, s'.psp)
      && (t in s'.psp <==> t in s.psp || (Needs(s, t) && (Survives(s, tx, t) || CoveredByVictim(s, tx.txid, t))))
  {
    var failed := FailAndCascade(s, tx, height, false);
    var survivors := Dedup(Survivors(s, tx.NonFundingInputs()));
    CascadePsp(s, tx, height, false, t);
    FailAndCascadeEvolves(s, tx, height, false);
    EvolvedNeeds(s, failed);
    assert t in survivors <==> Survives(s, tx, t);
    hide FailAndCascade, Evolves, Dedup, Survivors, CoveredByVictim, KeysOk;
    PrependPrepends(failed, StillNeedSpeedup(failed, survivors));
    PrependedTransitive(s.psp, failed.psp, RebuildSurvivors(s, tx, height).psp);
  }

  lemma FundingReleased(s: State, tx: CoordinatedTx, height: BlockHeight, i: nat)
    requires tx.kind.Speedup? && !tx.IsRBF() && i < |tx.FundingInputs()|
    ensures MarkClear(RebuildSurvivors(s, tx, height), tx.FundingInputs()[i].op)
  {
    RootRests(s, tx, height, false);
    hide FailAndCascade;
    assert MarkClear(FailAndCascade(s, tx, height, false), tx.Claimed()[i].op);
  }

  /** After a first CPFP fails through `settle_failed_child`: it is Failed, its funding is free, the pending list holds
      every surviving parent exactly once, and earlier entries keep their order at the end of the list. */
  lemma SurvivorRebuild(s: State, tx: CoordinatedTx, height: BlockHeight)
    requires Inv(s) && tx.IsFirstCpfp() && tx.txid in Pending(s) && Matches(s, tx)
    ensures var s' := SettleFailedChild(s, tx, height);
      && tx.txid in s'.txs && s'.txs[tx.txid].state.Failed?
      && (forall i :: 0 <= i < |tx.FundingInputs()| ==> MarkClear(s', tx.FundingInputs()[i].op))
      && NoDup(s'.psp)
      && PrependedTo(s.psp, s'.psp)
      && (forall t :: Needs(s, t) && Survives(s, tx, t) ==> t in s'.psp)
  {
    InvKeysOk(s);
    assert tx.txid in s.txs && s.txs[tx.txid].state.CanTransitionTo(Failed);
    hide Inv, KeysOk, FailAndCascade, Survives, PrependedTo, CoveredByVictim, Handles, MayFall, Matches, MarkClear, NoDup;
    var s' := SettleFailedChild(s, tx, height);
    RootSettles(s, tx, height, false);
    PendingMayFall(s, tx);
    FailedChildHandles(s, tx, height);
    PendingNoDup(s');
    forall t ensures PrependedTo(s.psp, s'.psp) && (Needs(s, t) && Survives(s, tx, t) ==> t in s'.psp) {
      SurvivorsQueued(s, tx, height, t);
    }
    forall i | 0 <= i < |tx.FundingInputs()| ensures MarkClear(s', tx.FundingInputs()[i].op) {
      FundingReleased(s, tx, height, i);
    }
  }

  lemma InvKeysOk(s: State)
    requires Inv(s)
    ensures KeysOk(s)
  {}

  lemma PendingNoDup(s: State)
    requires Inv(s)
    ensures NoDup(s.psp)
  {}

  lemma ClientsKeepState(s: State, tx: CoordinatedTx, height: BlockHeight, t: Txid)
    requires KeysOk(s) && IsSpeedup(s, tx.txid) && Needs(s, t)
    ensures t in RebuildSurvivors(s, tx, height).txs && RebuildSurvivors(s, tx, height).txs[t].state == s.txs[t].state
  {
    CascadeIsClosure(s, tx, height, false, t);
    hide FailAndCascade, Reaches;
  }

  /** A Failed parent is newly queued exactly when the cascade took down another CPFP that covers it: the re-queue of
      victims does not look at the parents' state. */
  lemma FailedParentQueued(s: State, tx: CoordinatedTx, height: BlockHeight, t: Txid)
    requires KeysOk(s) && IsSpeedup(s, tx.txid) && Needs(s, t) && t !in s.psp && s.txs[t].state.Failed?
    ensures var s' := RebuildSurvivors(s, tx, height);
      && t in s'.txs && s'.txs[t].state.Failed?
      && (t in s'.psp <==> CoveredByVictim(s, tx.txid, t))
  {
    hide KeysOk, RebuildSurvivors, CoveredByVictim, Survives;
    SurvivorsQueued(s, tx, height, t);
    ClientsKeepState(s, tx, height, t);
    assert !Survives(s, tx, t) by { FailedDoesNotSurvive(s, tx, t); }
  }

  lemma FailedDoesNotSurvive(s: State, tx: CoordinatedTx, t: Txid)
    requires t in s.txs && s.txs[t].state.Failed?
    ensures !Survives(s, tx, t)
  {}

  // ---------------------------------------------------------------- the covered parents

  /** What the builder promises of a first CPFP: it spends an output of every parent it covers. */
  predicate SpendsParents(tx: CoordinatedTx) {
    forall p :: p in tx.Parents() ==> exists i :: 0 <= i < |tx.NonFundingInputs()| && tx.NonFundingInputs()[i].txid == p
  }

  /** The covered parents after a first CPFP failed: each one that has not settled Failed is pending exactly once, and a
      Failed one is newly pending exactly when the cascade took down another speedup that covers it. */
  lemma CoveredParents(s: State, tx: CoordinatedTx, height: BlockHeight, p: Txid)
    requires Inv(s) && tx.IsFirstCpfp() && tx.txid in Pending(s) && Matches(s, tx) && SpendsParents(tx)
    requires p in tx.Parents() && Needs(s, p)
    ensures var s' := SettleFailedChild(s, tx, height);
      && NoDup(s'.psp)
      && (!s.txs[p].state.Failed? ==> p in s'.psp)
      && (s.txs[p].state.Failed? && p !in s.psp ==> (p in s'.psp <==> CoveredByVictim(s, tx.txid, p)))
  {
    SurvivorRebuild(s, tx, height);
    InvKeysOk(s);
    assert IsSpeedup(s, tx.txid);
    hide Inv, KeysOk, FailAndCascade, PrependedTo, CoveredByVictim, Matches, MarkClear, NoDup, RebuildSurvivors;
    if s.txs[p].state.Failed? && p !in s.psp {
      FailedParentQueued(s, tx, height, p);
    }
  }
}

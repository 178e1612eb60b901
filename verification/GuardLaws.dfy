/** The reorg-flap guard over dispatch steps and whole runs: below its deadline an input-consumed verdict never
    settles a transaction, however often it comes. */
module GuardLaws {
  import opened Types
  import opened Oracles
  import Fees
  import opened States
  import opened Failures
  import opened Dispatching
  import opened Engines
  import opened FeeLaws
  import opened Invariants
  import opened Evolution
  import opened CascadeLaws
  import opened GrowthLaws
  import opened ReviewLaws
  import opened DispatchLaws
  import opened OutcomeLaws
  import opened CreationLaws
  import opened Runs
  import opened ClientReviews
  import opened LifecycleLaws
  import opened Ticks
  import opened EventOutcomes
  import opened LifeLaws
  import opened SendLaws

  /** The verdict the guard is about: it was sent and refused, and the node has neither the transaction nor one of its inputs. */
  ghost predicate InputConsumed(s: State, cfg: Config, node: Node, r: CoordinatedTx) {
    && Found(s, cfg, node, r, SendError)
    && node.confirmations(r.txid).None?
    && (FundingGone(node, r) || ExternalGone(node, r))
  }

  /** Neither accepted nor failing: the record is only re-queued. */
  predicate Defers(cfg: Config, node: Node, d: Dispatch, height: BlockHeight) {
    !Accepted(node, d) && !FailsRoot(cfg, node, d, height)
  }

  ghost predicate DefersFor(cfg: Config, node: Node, ds: seq<Dispatch>, height: BlockHeight, t: Txid) {
    forall i :: 0 <= i < |ds| && ds[i].tx.txid == t ==> Defers(cfg, node, ds[i], height)
  }

  // ---------------------------------------------------------------- events that leave a waiting record alone

  lemma WalkSparesWaiting(s: State, t: Txid, tx: CoordinatedTx)
    requires Inv(s) && IsWaiting(s, t) && Live(s, tx.txid)
    ensures !Ancestor(s, t, tx.txid)
  {
    hide KeysOk, RbfOk, OrderOk, InputsOk, ChangeOk, QueueOk, SharingOk, InheritOk, MarkOk, ReservedOk, ListOk;
    hide LifecycleOk, ParentsOk, OnePrebuilt, Masked;
    assert Waiting(s, t) ==> !Masked(s, t);
    if Ancestor(s, t, tx.txid) {
      AncestorRank(s, t, tx.txid);
    }
  }

  lemma ReviewSparesWaiting(s: State, cfg: Config, status: Txid -> ChainStatus, all: seq<CoordinatedTx>, i: nat,
                            height: BlockHeight, t: Txid)
    requires i < |all| && Reviewing(s, all, i) && IsWaiting(s, t)
    ensures var s' := ReviewSpeedup(s, cfg, status, all, all[i], height); t in s'.txs && s'.txs[t] == s.txs[t]
  {
    var tx := all[i];
    assert Inv(s) && tx.txid in s.speedups && tx.txid in s.txs && s.txs[tx.txid] == tx;
    ReviewingFacts(s, all, i);
    if InFlight(tx) {
      assert Masked(s, tx.txid) ==> tx.HasLiveReplacement(all) by { SeesMask(s, all, i); }
      hide Inv, Reviewing, ReviewSpeedup, Masked, LineageOk, RbfOk;
      WalkSparesWaiting(s, t, tx);
      ReviewSpeedupTouches(s, cfg, status, all, tx, height);
    }
  }

  lemma SeesMask(s: State, all: seq<CoordinatedTx>, i: nat)
    requires i < |all| && Reviewing(s, all, i)
    ensures Masked(s, all[i].txid) ==> all[i].HasLiveReplacement(all)
  {
    hide Reviewing, Masked;
    if Masked(s, all[i].txid) {
      SnapshotSeesMask(s, all, i);
    }
  }

  lemma {:induction false} ReviewFromSparesWaiting(s: State, cfg: Config, status: Txid -> ChainStatus, all: seq<CoordinatedTx>,
                                                   i: nat, height: BlockHeight, t: Txid)
    requires i <= |all| && Reviewing(s, all, i) && IsWaiting(s, t)
    ensures var s' := ReviewSpeedupsFrom(s, cfg, status, all, i, height); t in s'.txs && s'.txs[t] == s.txs[t]
    decreases |all| - i
  {
    hide Reviewing, ReviewSpeedup;
    if i < |all| {
      ReviewSparesWaiting(s, cfg, status, all, i, height, t);
      ReviewSpeedupAdvances(s, cfg, status, all, i, height);
      ReviewFromSparesWaiting(ReviewSpeedup(s, cfg, status, all, all[i], height), cfg, status, all, i + 1, height, t);
    }
  }

  // ---------------------------------------------------------------- when a waiting record fails

  /** A waiting record is settled Failed by an event exactly when a failing outcome of that event is its own or
      cascades to it; every other event leaves it waiting. */
  lemma WaitingFailsExactlyWhen(s: State, cfg: Config, e: Event, t: Txid)
    requires Inv(s) && cfg.Valid() && Admissible(s, cfg, e) && IsWaiting(s, t) && t in Step(s, cfg, e).txs
    ensures Step(s, cfg, e).txs[t].state.Failed? <==>
              IsDispatch(e) && Felled(s, cfg, e.node, Outcomes(s, cfg, e), e.height, t)
    ensures !IsDispatch(e) ==> Step(s, cfg, e).txs[t].state.ToDispatch?
  {
    hide Inv, Outcomes, Taken, Felled, ConsistentOutcomes, Distinct, ReviewActive, ReviewSpeedups, DispatchPending;
    hide DispatchPendingSpeedups, BoostIfStale, CreateCpfpBatch, Register, AddFunding, Cancel, NoDup, ConsistentNode, FreshBuilder;
    hide FreshOutpoint, Evolves;
    if IsDispatch(e) {
      EventTracks(s, cfg, e);
      EventConsistent(s, cfg, e);
      TakenIsNotFelled(s, cfg, e.node, Outcomes(s, cfg, e), e.height, t);
    } else if e.ReviewClientsEvent? {
      ReviewClientsStep(s, cfg, e, t);
    } else if e.ReviewSpeedupsEvent? {
      ReviewSpeedupsSparesWaiting(s, cfg, e.status, e.height, t);
    } else {
      EventMoves(s, cfg, e, t);
    }
  }

  lemma ReviewSpeedupsSparesWaiting(s: State, cfg: Config, status: Txid -> ChainStatus, height: BlockHeight, t: Txid)
    requires Inv(s) && IsWaiting(s, t)
    ensures var s' := ReviewSpeedups(s, cfg, status, height); t in s'.txs && s'.txs[t] == s.txs[t]
  {
    hide Inv, Reviewing;
    ReviewStarts(s);
    ReviewFromSparesWaiting(s, cfg, status, SpeedupRecords(s), 0, height, t);
  }

  // ---------------------------------------------------------------- input-consumed verdicts

  /** Root by root: an input-consumed verdict fails its own transaction exactly when no guard holds. */
  lemma ConsumedFailsExactlyWhen(s: State, cfg: Config, node: Node, d: Dispatch, height: BlockHeight)
    requires InputConsumed(s, cfg, node, d.tx) && Found(s, cfg, node, d.tx, d.outcome)
    ensures FailsRoot(cfg, node, d, height) <==> !Guarded(d.tx, height)
    ensures Guarded(d.tx, height) ==> Defers(cfg, node, d, height)
  {
    hide FundingGone, ExternalGone, Invalid, ParentDead, ParentsThere;
  }

  lemma ConsumedDefers(s: State, cfg: Config, e: Event, t: Txid)
    requires Inv(s) && Admissible(s, cfg, e) && IsDispatch(e) && IsWaiting(s, t)
    requires HasOutcome(Outcomes(s, cfg, e), t) ==> InputConsumed(s, cfg, e.node, s.txs[t]) && Guarded(s.txs[t], e.height)
    ensures DefersFor(cfg, e.node, Outcomes(s, cfg, e), e.height, t)
  {
    hide Inv, Admissible, Outcomes, Found, FundingGone, ExternalGone, Selected;
    var ds := Outcomes(s, cfg, e);
    forall i | 0 <= i < |ds| && ds[i].tx.txid == t ensures Defers(cfg, e.node, ds[i], e.height) {
      assert HasOutcome(ds, t);
      OutcomeIsStored(s, cfg, e, i);
      OutcomesAre(s, cfg, e, ds[i]);
      ConsumedFailsExactlyWhen(s, cfg, e.node, ds[i], e.height);
    }
  }

  lemma DeferredIsTakenDown(s: State, cfg: Config, node: Node, ds: seq<Dispatch>, height: BlockHeight, t: Txid)
    requires DefersFor(cfg, node, ds, height, t)
    ensures !Taken(node, ds, t)
    ensures Felled(s, cfg, node, ds, height, t) <==> TakenDown(s, cfg, node, ds, height, t)
  {
    hide Accepted, FailsRoot, Reaches;
  }

  /** A dispatch step in which the only outcome for a guarded transaction, if there is one, is an input-consumed
      verdict below its deadline: the guard stays, and the transaction still waits exactly when no other failing
      transaction of the batch cascades to it. A client transaction always does. */
  lemma GuardedVerdict(s: State, cfg: Config, e: Event, t: Txid)
    requires Inv(s) && cfg.Valid() && Admissible(s, cfg, e) && IsDispatch(e) && IsWaiting(s, t)
    requires s.txs[t].failGuardUntil.Some?
    requires HasOutcome(Outcomes(s, cfg, e), t) ==> InputConsumed(s, cfg, e.node, s.txs[t]) && Guarded(s.txs[t], e.height)
    ensures t in Step(s, cfg, e).txs
    ensures var b := Step(s, cfg, e).txs[t];
      && b.failGuardUntil == s.txs[t].failGuardUntil
      && (b.state.ToDispatch? <==> !TakenDown(s, cfg, e.node, Outcomes(s, cfg, e), e.height, t))
      && (!b.state.ToDispatch? ==> b.state.Failed?)
      && (b.state.ToDispatch? ==>
            b.retryCount == s.txs[t].retryCount + if HasOutcome(Outcomes(s, cfg, e), t) then 1 else 0)
      && (!s.txs[t].kind.Speedup? ==> b.state.ToDispatch?)
  {
    hide Inv, Outcomes, Admissible, Step, InputConsumed, Felled, Taken, TakenDown, HasOutcome, DefersFor;
    ConsumedDefers(s, cfg, e, t);
    DispatchLife(s, cfg, e, t);
    DeferredIsTakenDown(s, cfg, e.node, Outcomes(s, cfg, e), e.height, t);
    if !s.txs[t].kind.Speedup? {
      ClientNotTakenDown(s, cfg, e.node, Outcomes(s, cfg, e), e.height, t);
    }
  }

  // ---------------------------------------------------------------- whole runs

  /** Whatever the event decides about `t` itself is an input-consumed verdict below the deadline, and nothing else of
      the event reaches `t`. */
  ghost predicate OnlyDeferred(s: State, cfg: Config, e: Event, t: Txid, deadline: BlockHeight)
    requires t in s.txs
  {
    && (IsDispatch(e) ==>
          && !TakenDown(s, cfg, e.node, Outcomes(s, cfg, e), e.height, t)
          && (HasOutcome(Outcomes(s, cfg, e), t) ==> InputConsumed(s, cfg, e.node, s.txs[t]) && e.height < deadline))
    && (e.CancelEvent? ==> t !in e.txids)
  }

  ghost predicate OnlyDeferredRun(s: State, cfg: Config, es: seq<Event>, t: Txid, deadline: BlockHeight)
    decreases |es|
  {
    es != [] ==> t in s.txs && OnlyDeferred(s, cfg, es[0], t, deadline)
                 && OnlyDeferredRun(Step(s, cfg, es[0]), cfg, es[1..], t, deadline)
  }

  /** The number of verdicts on `t` in a run. */
  ghost function Verdicts(s: State, cfg: Config, es: seq<Event>, t: Txid): nat
    decreases |es|
  {
    if es == [] then 0
    else (if HasOutcome(Outcomes(s, cfg, es[0]), t) then 1 else 0) + Verdicts(Step(s, cfg, es[0]), cfg, es[1..], t)
  }

  /** An event without outcomes keeps a waiting record as it is, up to marks. */
  lemma OtherEventsSpare(s: State, cfg: Config, e: Event, t: Txid)
    requires Inv(s) && cfg.Valid() && Admissible(s, cfg, e) && !IsDispatch(e) && IsWaiting(s, t)
    requires e.CancelEvent? ==> t !in e.txids
    ensures var s' := Step(s, cfg, e);
            IsWaiting(s', t) && s'.txs[t].failGuardUntil == s.txs[t].failGuardUntil && s'.txs[t].retryCount == s.txs[t].retryCount
  {
    hide Inv, ReviewActive, ReviewSpeedups, BoostIfStale, CreateCpfpBatch, ConsistentNode, FreshBuilder, FreshOutpoint, NoDup;
    match e
    case ReviewClientsEvent(_, _, _) => ReviewClientsStep(s, cfg, e, t);
    case ReviewSpeedupsEvent(status, height) => ReviewSpeedupsSparesWaiting(s, cfg, status, height, t);
    case BoostEvent(b, estimate, skip, height) => BoostCreates(s, cfg, b, estimate, skip, height);
    case CreateCpfpEvent(b, estimate, height) => CpfpCreates(s, cfg, b, estimate, height);
    case _ =>
  }

  lemma QuietEvent(s: State, cfg: Config, e: Event, t: Txid)
    requires !IsDispatch(e)
    ensures !HasOutcome(Outcomes(s, cfg, e), t)
  {}

  /** However often an input-consumed verdict comes below the deadline, and whatever happens in between, the
      transaction still waits with the same deadline; each verdict only counts as a retry. */
  lemma {:induction false} GuardOutlastsVerdicts(s: State, cfg: Config, es: seq<Event>, t: Txid, deadline: BlockHeight)
    requires Inv(s) && cfg.Valid() && AdmissibleRun(s, cfg, es) && OnlyDeferredRun(s, cfg, es, t, deadline)
    requires IsWaiting(s, t) && s.txs[t].failGuardUntil == Some(deadline)
    ensures var s' := Run(s, cfg, es);
      && IsWaiting(s', t)
      && s'.txs[t].failGuardUntil == Some(deadline)
      && s'.txs[t].retryCount == s.txs[t].retryCount + Verdicts(s, cfg, es, t)
    decreases |es|
  {
    hide Inv, Step, Admissible, Outcomes, HasOutcome, TakenDown, InputConsumed;
    if es != [] {
      StepKeepsInv(s, cfg, es[0]);
      if IsDispatch(es[0]) {
        GuardedVerdict(s, cfg, es[0], t);
      } else {
        OtherEventsSpare(s, cfg, es[0], t);
        QuietEvent(s, cfg, es[0], t);
      }
      GuardOutlastsVerdicts(Step(s, cfg, es[0]), cfg, es[1..], t, deadline);
    }
  }
}

/** Which transactions a dispatch step hands to the node and what it finds for each, exactly, read from the store and the node's
    answers alone (src/core/dispatcher.rs:88-195, src/engines/transaction_engine.rs:54-79, src/helper.rs:222-224). */
module SendLaws {
  import opened Types
  import opened Oracles
  import opened States
  import opened Dispatching
  import opened Engines
  import opened Invariants
  import opened Evolution
  import opened CascadeLaws
  import opened DispatchLaws
  import opened OutcomeLaws
  import opened CreationLaws
  import opened Runs
  import opened Ticks
  import opened EventOutcomes
  import opened LifeLaws

  /** No node can accept it: it has no inputs or is over the weight limit. */
  predicate Invalid(cfg: Config, r: CoordinatedTx) {
    |r.tx.inputs| == 0 || r.tx.weight > cfg.maxTxWeight
  }

  /** The source of the `i`-th input is stored and settled Failed. */
  predicate DeadParent(s: State, r: CoordinatedTx, i: int) {
    0 <= i < |r.tx.inputs| && r.tx.inputs[i].txid in s.txs && s.txs[r.tx.inputs[i].txid].state.Failed?
  }

  predicate ParentDead(s: State, r: CoordinatedTx) {
    exists i :: 0 <= i < |r.tx.inputs| && DeadParent(s, r, i)
  }

  /** The node or the chain has the source of every input the store knows. */
  predicate ParentsThere(s: State, node: Node, r: CoordinatedTx) {
    forall i :: 0 <= i < |r.tx.inputs| && r.tx.inputs[i].txid in s.txs ==> node.parentReady(r.txid, r.tx.inputs[i].txid)
  }

  /** `t` is up for dispatch: it waits, its retry is not paced out, and it is a listed speedup or, in the step for client
      transactions, one of the store's records whose target height has come. */
  predicate Selected(s: State, e: Event, t: Txid)
    requires IsDispatch(e)
  {
    && t in s.txs
    && s.txs[t].state.ToDispatch?
    && (s.txs[t].retryCount == 0 || e.retryReady)
    && match e
       case DispatchClientsEvent(_, order, _, _, height) =>
         t in order && !s.txs[t].kind.Speedup? && height >= s.txs[t].targetBlockHeight
       case DispatchSpeedupsEvent(_, _, _) => t in s.speedups
  }

  /** What the dispatcher finds for `r`: rejected without sending, doomed by its first dead parent, or sent; nothing while a
      tracked parent is not there yet. */
  ghost predicate Found(s: State, cfg: Config, node: Node, r: CoordinatedTx, o: Outcome) {
    if Invalid(cfg, r) then o == Fatal
    else if ParentDead(s, r) then
      exists i :: 0 <= i < |r.tx.inputs| && DeadParent(s, r, i) && o == ParentFailed(r.tx.inputs[i].txid)
                  && forall j :: 0 <= j < i ==> !DeadParent(s, r, j)
    else if ParentsThere(s, node, r) then o == if node.accepts(r.txid) then Success else SendError
    else false
  }

  // ---------------------------------------------------------------- the dispatcher

  lemma {:induction false} FirstDead(s: State, inputs: seq<OutPoint>)
    requires FailedParent(s, inputs).Some?
    ensures exists i :: 0 <= i < |inputs| && inputs[i].txid == FailedParent(s, inputs).value
                        && inputs[i].txid in s.txs && s.txs[inputs[i].txid].state.Failed?
                        && forall j :: 0 <= j < i ==> !(inputs[j].txid in s.txs && s.txs[inputs[j].txid].state.Failed?)
  {
    if inputs[0].txid in s.txs && s.txs[inputs[0].txid].state.Failed? {
      assert inputs[0].txid == FailedParent(s, inputs).value;
    } else {
      var rest := inputs[1..];
      FirstDead(s, rest);
      var i :| 0 <= i < |rest| && rest[i].txid == FailedParent(s, rest).value
               && rest[i].txid in s.txs && s.txs[rest[i].txid].state.Failed?
               && forall j :: 0 <= j < i ==> !(rest[j].txid in s.txs && s.txs[rest[j].txid].state.Failed?);
      assert inputs[i + 1] == rest[i];
      assert forall j :: 0 < j < i + 1 ==> inputs[j] == rest[j - 1];
    }
  }

  lemma FirstDeadIs(s: State, r: CoordinatedTx, i: nat)
    requires DeadParent(s, r, i) && forall j :: 0 <= j < i ==> !DeadParent(s, r, j)
    ensures FailedParent(s, r.tx.inputs) == Some(r.tx.inputs[i].txid)
  {
    hide FailedParent;
    var inputs := r.tx.inputs;
    assert FailedParent(s, inputs).Some?;
    FirstDead(s, inputs);
    var k :| 0 <= k < |inputs| && inputs[k].txid == FailedParent(s, inputs).value
             && inputs[k].txid in s.txs && s.txs[inputs[k].txid].state.Failed?
             && forall j :: 0 <= j < k ==> !(inputs[j].txid in s.txs && s.txs[inputs[j].txid].state.Failed?);
    assert DeadParent(s, r, k);
    assert k >= i;
    assert k <= i;
  }

  lemma SendIs(s: State, cfg: Config, node: Node, r: CoordinatedTx, o: Outcome)
    requires !Invalid(cfg, r)
    ensures SendOne(s, node, r) == Some(o) <==> Found(s, cfg, node, r, o)
  {
    hide FailedParent, DeadParent, Invalid;
    DeadIs(s, r);
    if ParentDead(s, r) {
      SmallestDead(s, r, |r.tx.inputs|);
      var k :| 0 <= k < |r.tx.inputs| && DeadParent(s, r, k) && forall j :: 0 <= j < k ==> !DeadParent(s, r, j);
      FirstDeadIs(s, r, k);
    }
  }

  lemma DeadIs(s: State, r: CoordinatedTx)
    ensures FailedParent(s, r.tx.inputs).Some? <==> ParentDead(s, r)
  {
    hide FailedParent;
    if i :| 0 <= i < |r.tx.inputs| && r.tx.inputs[i].txid in s.txs && s.txs[r.tx.inputs[i].txid].state.Failed? {
      assert DeadParent(s, r, i);
    }
  }

  lemma {:induction false} SmallestDead(s: State, r: CoordinatedTx, n: nat)
    requires n <= |r.tx.inputs| && exists i :: 0 <= i < n && DeadParent(s, r, i)
    ensures exists i :: 0 <= i < n && DeadParent(s, r, i) && forall j :: 0 <= j < i ==> !DeadParent(s, r, j)
  {
    hide DeadParent;
    if exists i :: 0 <= i < n - 1 && DeadParent(s, r, i) {
      SmallestDead(s, r, n - 1);
    } else {
      assert DeadParent(s, r, n - 1);
    }
  }

  lemma {:induction false} FatalIs(cfg: Config, txs: seq<CoordinatedTx>, d: Dispatch)
    ensures d in FatalResults(cfg, txs) <==> d.tx in txs && Invalid(cfg, d.tx) && d.outcome == Fatal
  {
    if txs != [] {
      FatalIs(cfg, txs[1..], d);
    }
  }

  lemma {:induction false} SendResultsAre(s: State, cfg: Config, node: Node, txs: seq<CoordinatedTx>, d: Dispatch)
    ensures d in SendResults(s, cfg, node, txs) <==>
              d.tx in txs && !Invalid(cfg, d.tx) && SendOne(s, node, d.tx) == Some(d.outcome)
  {
    hide SendOne;
    if txs != [] {
      SendResultsAre(s, cfg, node, txs[1..], d);
    }
  }

  lemma DispatchIs(s: State, cfg: Config, node: Node, txs: seq<CoordinatedTx>, d: Dispatch)
    ensures d in DispatchAll(s, cfg, node, txs) <==> d.tx in txs && Found(s, cfg, node, d.tx, d.outcome)
  {
    hide FatalResults, SendResults, SendOne, ParentDead, ParentsThere, Malformed;
    FatalIs(cfg, txs, d);
    SendResultsAre(s, cfg, node, txs, d);
    if !Invalid(cfg, d.tx) {
      SendIs(s, cfg, node, d.tx, d.outcome);
    }
  }

  // ---------------------------------------------------------------- the batches

  lemma {:induction false} PacedIs(txs: seq<CoordinatedTx>, retryReady: bool, r: CoordinatedTx)
    ensures r in RetryFilter(txs, retryReady) <==> r in txs && (r.retryCount == 0 || retryReady)
  {
    if txs != [] {
      PacedIs(txs[1..], retryReady, r);
    }
  }

  lemma {:induction false} ReadyIs(s: State, order: seq<Txid>, height: BlockHeight, r: CoordinatedTx)
    requires KeysOk(s)
    ensures r in ReadyToDispatch(s, order, height) <==>
              && r.txid in order && r.txid in s.txs && s.txs[r.txid] == r
              && !r.kind.Speedup? && r.state.ToDispatch? && height >= r.targetBlockHeight
  {
    if order != [] {
      ReadyIs(s, order[1..], height, r);
    }
  }

  lemma ListedIs(s: State, r: CoordinatedTx)
    requires KeysOk(s)
    ensures r in WaitingRecords(SpeedupRecords(s)) <==>
              r.txid in s.speedups && r.txid in s.txs && s.txs[r.txid] == r && r.state.ToDispatch?
  {}

  /** The records a dispatch step hands to the dispatcher. */
  function Batch(s: State, e: Event): seq<CoordinatedTx>
    requires IsDispatch(e)
  {
    if e.DispatchClientsEvent? then RetryFilter(ReadyToDispatch(s, e.order, e.height), e.retryReady)
    else SpeedupBatch(s, e.retryReady)
  }

  lemma BatchIs(s: State, e: Event, r: CoordinatedTx)
    requires Inv(s) && IsDispatch(e)
    ensures r in Batch(s, e) <==> Selected(s, e, r.txid) && s.txs[r.txid] == r
  {
    assert KeysOk(s);
    hide Inv, KeysOk, RetryFilter, ReadyToDispatch, WaitingRecords, SpeedupRecords;
    if e.DispatchClientsEvent? {
      PacedIs(ReadyToDispatch(s, e.order, e.height), e.retryReady, r);
      ReadyIs(s, e.order, e.height, r);
    } else {
      PacedIs(WaitingRecords(SpeedupRecords(s)), e.retryReady, r);
      ListedIs(s, r);
    }
  }

  /** The outcomes of a dispatch step, exactly: one for every selected transaction the dispatcher finds something for, with what
      it finds. */
  lemma OutcomesAre(s: State, cfg: Config, e: Event, d: Dispatch)
    requires Inv(s) && IsDispatch(e)
    ensures d in Outcomes(s, cfg, e) <==>
              Selected(s, e, d.tx.txid) && s.txs[d.tx.txid] == d.tx && Found(s, cfg, e.node, d.tx, d.outcome)
  {
    hide Inv, DispatchAll, RetryFilter, ReadyToDispatch, SpeedupBatch, Found, Selected;
    BatchIs(s, e, d.tx);
    DispatchIs(s, cfg, e.node, Batch(s, e), d);
  }

  // ---------------------------------------------------------------- who is dispatched

  lemma SomethingFound(s: State, cfg: Config, node: Node, r: CoordinatedTx)
    ensures (exists o :: Found(s, cfg, node, r, o)) <==> Invalid(cfg, r) || ParentDead(s, r) || ParentsThere(s, node, r)
  {
    hide DeadParent;
    if Invalid(cfg, r) {
      assert Found(s, cfg, node, r, Fatal);
    } else if ParentDead(s, r) {
      SmallestDead(s, r, |r.tx.inputs|);
      var i :| 0 <= i < |r.tx.inputs| && DeadParent(s, r, i) && forall j :: 0 <= j < i ==> !DeadParent(s, r, j);
      assert Found(s, cfg, node, r, ParentFailed(r.tx.inputs[i].txid));
    } else if ParentsThere(s, node, r) {
      assert Found(s, cfg, node, r, if node.accepts(r.txid) then Success else SendError);
    }
  }

  lemma InOutcomes(ds: seq<Dispatch>, t: Txid)
    ensures HasOutcome(ds, t) <==> exists d :: d in ds && d.tx.txid == t
  {
    if d :| d in ds && d.tx.txid == t {
      var i :| 0 <= i < |ds| && ds[i] == d;
    }
  }

  lemma OneOutcome(ds: seq<Dispatch>, t: Txid)
    requires Distinct(ds)
    ensures forall i, j :: 0 <= i < j < |ds| && ds[i].tx.txid == t ==> ds[j].tx.txid != t
  {}

  lemma SelectedStored(s: State, e: Event, t: Txid)
    requires KeysOk(s) && IsDispatch(e) && Selected(s, e, t)
    ensures t in s.txs && s.txs[t].txid == t
  {}

  predicate Answerable(s: State, cfg: Config, node: Node, r: CoordinatedTx) {
    Invalid(cfg, r) || ParentDead(s, r) || ParentsThere(s, node, r)
  }

  lemma AnsweredIsSelected(s: State, cfg: Config, e: Event, t: Txid)
    requires Inv(s) && IsDispatch(e) && HasOutcome(Outcomes(s, cfg, e), t)
    ensures Selected(s, e, t) && Answerable(s, cfg, e.node, s.txs[t])
  {
    hide Inv, Outcomes, Selected, Found, HasOutcome, Invalid, ParentDead, ParentsThere;
    InOutcomes(Outcomes(s, cfg, e), t);
    var d :| d in Outcomes(s, cfg, e) && d.tx.txid == t;
    OutcomesAre(s, cfg, e, d);
    SomethingFound(s, cfg, e.node, d.tx);
  }

  lemma SelectedIsAnswered(s: State, cfg: Config, e: Event, t: Txid)
    requires Inv(s) && IsDispatch(e) && Selected(s, e, t) && Answerable(s, cfg, e.node, s.txs[t])
    ensures HasOutcome(Outcomes(s, cfg, e), t)
  {
    InvKeyed(s);
    SelectedStored(s, e, t);
    hide Inv, KeysOk, Outcomes, Selected, Found, HasOutcome, Invalid, ParentDead, ParentsThere;
    SomethingFound(s, cfg, e.node, s.txs[t]);
    var o :| Found(s, cfg, e.node, s.txs[t], o);
    OutcomesAre(s, cfg, e, Dispatch(s.txs[t], o));
    InOutcomes(Outcomes(s, cfg, e), t);
  }

  /** A transaction has an outcome in a dispatch step exactly when it is selected and is invalid, or has a dead parent, or has all
      its tracked parents in place; and then it has exactly one. */
  lemma DispatchedExactlyWhen(s: State, cfg: Config, e: Event, t: Txid)
    requires Inv(s) && Admissible(s, cfg, e) && IsDispatch(e)
    ensures HasOutcome(Outcomes(s, cfg, e), t) <==>
              && Selected(s, e, t)
              && (Invalid(cfg, s.txs[t]) || ParentDead(s, s.txs[t]) || ParentsThere(s, e.node, s.txs[t]))
    ensures forall i, j :: 0 <= i < j < |Outcomes(s, cfg, e)| && Outcomes(s, cfg, e)[i].tx.txid == t ==>
              Outcomes(s, cfg, e)[j].tx.txid != t
  {
    assert Selected(s, e, t) ==> t in s.txs;
    hide Inv, Outcomes, Selected, HasOutcome, Admissible, Invalid, ParentDead, ParentsThere, Tracks, Distinct, Step;
    EventTracks(s, cfg, e);
    OneOutcome(Outcomes(s, cfg, e), t);
    if HasOutcome(Outcomes(s, cfg, e), t) {
      AnsweredIsSelected(s, cfg, e, t);
    }
    if Selected(s, e, t) && Answerable(s, cfg, e.node, s.txs[t]) {
      SelectedIsAnswered(s, cfg, e, t);
    }
  }

  /** Before its target height a client transaction is not sent and its record does not change. */
  lemma EarlyStays(s: State, cfg: Config, e: Event, t: Txid)
    requires Inv(s) && Admissible(s, cfg, e) && e.DispatchClientsEvent?
    requires t in s.txs && !s.txs[t].kind.Speedup? && s.txs[t].targetBlockHeight > e.height
    ensures !HasOutcome(Outcomes(s, cfg, e), t)
    ensures t in Step(s, cfg, e).txs && Step(s, cfg, e).txs[t] == s.txs[t]
  {
    hide Inv, Admissible, Outcomes, HasOutcome, Invalid, ParentDead, ParentsThere;
    DispatchedExactlyWhen(s, cfg, e, t);
    UnsentStays(s, cfg, e, t);
  }

  /** A client transaction without an outcome is left exactly as it is. */
  lemma UnsentStays(s: State, cfg: Config, e: Event, t: Txid)
    requires Inv(s) && Admissible(s, cfg, e) && IsDispatch(e) && t in s.txs && !s.txs[t].kind.Speedup?
    requires !HasOutcome(Outcomes(s, cfg, e), t)
    ensures t in Step(s, cfg, e).txs && Step(s, cfg, e).txs[t] == s.txs[t]
  {
    hide Inv, Admissible, Outcomes, Step, Accepted, FailsRoot, Felled;
    DispatchLife(s, cfg, e, t);
    ClientNotTakenDown(s, cfg, e.node, Outcomes(s, cfg, e), e.height, t);
    NoOutcomeNoEffect(s, cfg, e.node, Outcomes(s, cfg, e), e.height, t);
    SameLifeSameClient(s.txs[t], Step(s, cfg, e).txs[t]);
  }

  lemma NoOutcomeNoEffect(s: State, cfg: Config, node: Node, ds: seq<Dispatch>, height: BlockHeight, t: Txid)
    requires !HasOutcome(ds, t) && !TakenDown(s, cfg, node, ds, height, t)
    ensures !Taken(node, ds, t) && !Felled(s, cfg, node, ds, height, t)
  {
    hide Accepted, FailsRoot, Reaches;
  }

  lemma SameLifeSameClient(a: CoordinatedTx, b: CoordinatedTx)
    requires SameShape(a, b) && LifeIn(a) == LifeIn(b) && !a.kind.Speedup?
    ensures a == b
  {}

  // ---------------------------------------------------------------- what step 5 is told

  /** A replacement, or a CPFP that carries no parent of its own. */
  predicate IsBoostRecord(r: CoordinatedTx) {
    r.kind.Speedup? && (r.kind.speedup.RBF? || r.kind.speedup.context.parentVsizes == [])
  }

  predicate FailedBoost(s: State, r: CoordinatedTx) {
    IsBoostRecord(r) && r.txid in s.txs && s.txs[r.txid].state.Failed?
  }

  lemma BoostFailedInBatch(s: State, s': State, retryReady: bool)
    ensures BoostFailed(s, s', retryReady) <==> exists r :: r in SpeedupBatch(s, retryReady) && FailedBoost(s', r)
  {
    var batch := SpeedupBatch(s, retryReady);
    hide SpeedupBatch;
    if i :| 0 <= i < |batch| && batch[i].kind.Speedup? && batch[i].kind.speedup.IsBoost()
            && batch[i].txid in s'.txs && s'.txs[batch[i].txid].state.Failed? {
      assert FailedBoost(s', batch[i]);
    }
    if r :| r in batch && FailedBoost(s', r) {
      var i :| 0 <= i < |batch| && batch[i] == r;
      assert batch[i].kind.speedup.IsBoost();
    }
  }

  lemma BoostFailedIs(s: State, s': State, e: Event)
    requires KeysOk(s) && Inv(s) && e.DispatchSpeedupsEvent?
    ensures BoostFailed(s, s', e.retryReady) <==>
              exists t :: Selected(s, e, t) && IsBoostRecord(s.txs[t]) && t in s'.txs && s'.txs[t].state.Failed?
  {
    assert forall t :: Selected(s, e, t) ==> t in s.txs;
    hide Inv, KeysOk, SpeedupBatch, Selected, BoostFailed, IsBoostRecord;
    BoostFailedInBatch(s, s', e.retryReady);
    assert Batch(s, e) == SpeedupBatch(s, e.retryReady);
    hide Batch;
    if r :| r in Batch(s, e) && FailedBoost(s', r) {
      BatchIs(s, e, r);
    }
    if t :| t in s.txs && Selected(s, e, t) && IsBoostRecord(s.txs[t]) && t in s'.txs && s'.txs[t].state.Failed? {
      SelectedStored(s, e, t);
      BatchIs(s, e, s.txs[t]);
      assert FailedBoost(s', s.txs[t]);
    }
  }

  /** Step 4 reports a failed boost exactly when one of the speedups it took up is a boost and has settled Failed. */
  lemma SkipsBoostExactlyWhen(s: State, cfg: Config, e: Event)
    requires Inv(s) && e.DispatchSpeedupsEvent?
    ensures var s' := Step(s, cfg, e);
            BoostFailed(s, s', e.retryReady) <==>
              exists t :: Selected(s, e, t) && IsBoostRecord(s.txs[t]) && t in s'.txs && s'.txs[t].state.Failed?
  {
    InvKeyed(s);
    hide Inv, KeysOk, Step, BoostFailed, Selected, IsBoostRecord;
    BoostFailedIs(s, Step(s, cfg, e), e);
  }
}

/** Broadcasting a batch and classifying each outcome (src/core/dispatcher.rs, src/engines/common.rs). */
module Dispatching {
  import opened Types
  import opened Oracles
  import opened States
  import opened Failures

  // ---------------------------------------------------------------- dispatcher

  datatype Outcome = Success | Fatal | ParentFailed(parent: Txid) | SendError

  /** An outcome together with the batch record it is for. */
  datatype Dispatch = Dispatch(tx: CoordinatedTx, outcome: Outcome)

  /** Decidable from the transaction alone: no inputs, or over the weight limit. */
  predicate Malformed(cfg: Config, tx: CoordinatedTx) {
    tx.tx.inputs == [] || tx.tx.weight > cfg.maxTxWeight
  }

  function FailedParent(s: State, inputs: seq<OutPoint>): (p: Option<Txid>)
    ensures p.Some? <==> exists i :: 0 <= i < |inputs| && inputs[i].txid in s.txs && s.txs[inputs[i].txid].state.Failed?
    ensures p.Some? ==> p.value in s.txs && s.txs[p.value].state.Failed?
  {
    if inputs == [] then None
    else if inputs[0].txid in s.txs && s.txs[inputs[0].txid].state.Failed? then Some(inputs[0].txid)
    else
      var rest := FailedParent(s, inputs[1..]);
      assert rest.Some? ==> exists i :: 0 <= i < |inputs[1..]| && inputs[1..][i].txid in s.txs
                                        && s.txs[inputs[1..][i].txid].state.Failed? && inputs[1..][i] == inputs[i + 1];
      assert forall i :: 0 < i < |inputs| ==> inputs[1..][i - 1] == inputs[i];
      rest
  }

  predicate ParentsReady(s: State, node: Node, tx: CoordinatedTx) {
    forall i :: 0 <= i < |tx.tx.inputs| && tx.tx.inputs[i].txid in s.txs ==>
      node.parentReady(tx.txid, tx.tx.inputs[i].txid)
  }

  function FatalResults(cfg: Config, txs: seq<CoordinatedTx>): (ds: seq<Dispatch>) {
    if txs == [] then []
    else (if Malformed(cfg, txs[0]) then [Dispatch(txs[0], Fatal)] else []) + FatalResults(cfg, txs[1..])
  }

  /** The outcome of a well-formed transaction; `None` when a tracked parent is not there yet. */
  function SendOne(s: State, node: Node, tx: CoordinatedTx): Option<Outcome> {
    var failed := FailedParent(s, tx.tx.inputs);
    if failed.Some? then Some(ParentFailed(failed.value))
    else if !ParentsReady(s, node, tx) then None
    else Some(if node.accepts(tx.txid) then Success else SendError)
  }

  function SendResults(s: State, cfg: Config, node: Node, txs: seq<CoordinatedTx>): seq<Dispatch> {
    if txs == [] then []
    else
      var rest := SendResults(s, cfg, node, txs[1..]);
      if Malformed(cfg, txs[0]) then rest
      else
        var outcome := SendOne(s, node, txs[0]);
        if outcome.Some? then [Dispatch(txs[0], outcome.value)] + rest else rest
  }

  /** Structural rejections come first, then the sent ones, each group in batch order. */
  function DispatchAll(s: State, cfg: Config, node: Node, txs: seq<CoordinatedTx>): seq<Dispatch> {
    FatalResults(cfg, txs) + SendResults(s, cfg, node, txs)
  }

  /** A retried transaction goes out only when the shared retry interval has elapsed. */
  function RetryFilter(txs: seq<CoordinatedTx>, retryReady: bool): (r: seq<CoordinatedTx>)
    ensures forall t :: t in r ==> t in txs
    ensures |r| <= |txs|
  {
    if txs == [] then []
    else (if txs[0].retryCount == 0 || retryReady then [txs[0]] else []) + RetryFilter(txs[1..], retryReady)
  }

  // ---------------------------------------------------------------- outcomes

  function MarkReplaced(s: State, tx: CoordinatedTx): State {
    if tx.IsRBF() then SetReplacedBy(s, tx.kind.speedup.predecessor, Some(tx.txid)) else s
  }

  /** Writes back the batch snapshot of `tx`. */
  function MarkAccepted(s: State, tx: CoordinatedTx, height: BlockHeight, fee: FeeInfo): State {
    Put(MarkReplaced(s, tx), tx.txid,
        tx.(state := InMempool, broadcastBlockHeight := Some(height), feeInfo := fee, failGuardUntil := None))
  }

  function MarkAlreadyConfirmed(s: State, tx: CoordinatedTx, height: BlockHeight): State {
    Put(MarkReplaced(s, tx), tx.txid,
        tx.(state := Confirmed,
            broadcastBlockHeight := if tx.broadcastBlockHeight.Some? then tx.broadcastBlockHeight else Some(height),
            failGuardUntil := None))
  }

  /** Funding inputs first: a gone one is recoverable, any other gone input is fatal for this transaction. */
  function MissingInputKind(node: Node, tx: CoordinatedTx): Option<bool> {
    if exists op :: op in Ops(tx.FundingInputs()) && !node.unspent(op) then Some(true)
    else if exists op :: op in tx.NonFundingInputs() && !node.unspent(op) then Some(false)
    else None
  }

  /** Inputs of `tx` outside its funding whose source has not settled Failed, as source txids. */
  function Survivors(s: State, ops: seq<OutPoint>): (r: seq<Txid>)
    ensures forall t :: t in r <==> (exists i :: 0 <= i < |ops| && ops[i].txid == t)
                                    && !(t in s.txs && s.txs[t].state.Failed?)
  {
    if ops == [] then []
    else
      assert ops == [ops[0]] + ops[1..];
      (if ops[0].txid in s.txs && s.txs[ops[0].txid].state.Failed? then [] else [ops[0].txid]) + Survivors(s, ops[1..])
  }

  function Dedup<T(==, !new)>(xs: seq<T>): (r: seq<T>)
    ensures forall x :: x in r <==> x in xs
  {
    if xs == [] then []
    else
      assert xs == xs[..|xs| - 1] + [xs[|xs| - 1]];
      var front := Dedup(xs[..|xs| - 1]);
      if xs[|xs| - 1] in front then front else front + [xs[|xs| - 1]]
  }

  /** Settle the CPFP, then re-queue every covered parent that has not itself settled Failed. */
  function RebuildSurvivors(s: State, tx: CoordinatedTx, height: BlockHeight): State {
    var survivors := Survivors(s, tx.NonFundingInputs());
    var failed := FailAndCascade(s, tx, height, false);
    PrependPending(failed, StillNeedSpeedup(failed, Dedup(survivors)))
  }

  function SettleFailedChild(s: State, tx: CoordinatedTx, height: BlockHeight): State {
    if tx.IsFirstCpfp() then RebuildSurvivors(s, tx, height) else FailAndCascade(s, tx, height, false)
  }

  function ClassifyDispatchError(s: State, cfg: Config, node: Node, tx: CoordinatedTx, height: BlockHeight,
                                 fee: FeeInfo): State
  {
    match node.confirmations(tx.txid)
    case Some(n) =>
      if n == 0 then MarkAccepted(s, tx, height, fee) else MarkAlreadyConfirmed(s, tx, height)
    case None =>
      var missing := MissingInputKind(node, tx);
      if missing.Some? then
        if tx.failGuardUntil.Some? && height < tx.failGuardUntil.value then MarkAsRetry(s, tx.txid)
        else if missing.value then FailAndCascade(s, tx, height, true)
        else SettleFailedChild(s, tx, height)
      else if tx.retryCount + 1 >= cfg.retryAttempts then FailAndCascade(s, tx, height, false)
      else MarkAsRetry(s, tx.txid)
  }

  function HandleDispatchResult(s: State, cfg: Config, node: Node, d: Dispatch, height: BlockHeight, fee: FeeInfo): State {
    match d.outcome
    case Success => MarkAccepted(s, d.tx, height, fee)
    case Fatal => FailAndCascade(s, d.tx, height, false)
    case ParentFailed(_) => SettleFailedChild(s, d.tx, height)
    case SendError => ClassifyDispatchError(s, cfg, node, d.tx, height, fee)
  }

  /** The node reports a funding input of `tx` spent or missing. */
  predicate FundingGone(node: Node, tx: CoordinatedTx) {
    exists i :: 0 <= i < |tx.FundingInputs()| && !node.unspent(tx.FundingInputs()[i].op)
  }

  /** The node reports another input of `tx` spent or missing. */
  predicate ExternalGone(node: Node, tx: CoordinatedTx) {
    exists i :: 0 <= i < |tx.tx.inputs| && tx.tx.inputs[i] !in Ops(tx.FundingInputs()) && !node.unspent(tx.tx.inputs[i])
  }

  /** A gone funding input decides before any other. */
  lemma MissingIs(node: Node, tx: CoordinatedTx)
    ensures MissingInputKind(node, tx)
            == if FundingGone(node, tx) then Some(true) else if ExternalGone(node, tx) then Some(false) else None
  {
    if op :| op in Ops(tx.FundingInputs()) && !node.unspent(op) {
      var i :| 0 <= i < |tx.FundingInputs()| && tx.FundingInputs()[i].op == op;
    }
    if op :| op in tx.NonFundingInputs() && !node.unspent(op) {
      var i :| 0 <= i < |tx.tx.inputs| && tx.tx.inputs[i] == op;
    }
    if i :| 0 <= i < |tx.tx.inputs| && tx.tx.inputs[i] !in Ops(tx.FundingInputs()) && !node.unspent(tx.tx.inputs[i]) {
      assert tx.tx.inputs[i] in tx.NonFundingInputs();
    }
  }

  /** A verdict of the record's own guard: below the deadline. */
  predicate Guarded(r: CoordinatedTx, height: BlockHeight) {
    r.failGuardUntil.Some? && height < r.failGuardUntil.value
  }

  /** The outcome settles its own transaction Failed: it can never be valid, an input is gone and no guard holds, or the
      retries are spent. */
  predicate FailsRoot(cfg: Config, node: Node, d: Dispatch, height: BlockHeight) {
    match d.outcome
    case Success => false
    case Fatal => true
    case ParentFailed(_) => true
    case SendError =>
      && node.confirmations(d.tx.txid).None?
      && if FundingGone(node, d.tx) || ExternalGone(node, d.tx) then !Guarded(d.tx, height)
         else d.tx.retryCount + 1 >= cfg.retryAttempts
  }

  /** The node has the transaction: the outcome writes the batch snapshot back. */
  predicate Accepted(node: Node, d: Dispatch) {
    d.outcome.Success? || (d.outcome.SendError? && node.confirmations(d.tx.txid).Some?)
  }

  /** The ways an outcome is handled, told apart by the node's answers. */
  lemma HandledAs(s: State, cfg: Config, node: Node, d: Dispatch, height: BlockHeight, fee: FeeInfo)
    ensures HandleDispatchResult(s, cfg, node, d, height, fee)
            == if Accepted(node, d) then
                 if d.outcome.Success? || node.confirmations(d.tx.txid) == Some(0) then MarkAccepted(s, d.tx, height, fee)
                 else MarkAlreadyConfirmed(s, d.tx, height)
               else if !FailsRoot(cfg, node, d, height) then MarkAsRetry(s, d.tx.txid)
               else if d.outcome.SendError? && FundingGone(node, d.tx) then FailAndCascade(s, d.tx, height, true)
               else if d.outcome.ParentFailed? || (d.outcome.SendError? && ExternalGone(node, d.tx)) then
                 SettleFailedChild(s, d.tx, height)
               else FailAndCascade(s, d.tx, height, false)
  {
    hide FailAndCascade, SettleFailedChild, MarkAccepted, MarkAlreadyConfirmed, MarkAsRetry, MissingInputKind, FundingGone, ExternalGone;
    MissingIs(node, d.tx);
  }
}

/** What every reachable state keeps. The clauses are strengthened together: none is inductive alone. */
module Invariants {
  import opened Types
  import opened States
  import opened Failures

  // ---------------------------------------------------------------- vocabulary

  predicate IsSpeedup(s: State, t: Txid) {
    t in s.txs && s.txs[t].kind.Speedup?
  }

  /** A speedup not settled Failed. */
  predicate Live(s: State, t: Txid) {
    IsSpeedup(s, t) && !s.txs[t].state.Failed?
  }

  predicate Waiting(s: State, t: Txid) {
    IsSpeedup(s, t) && s.txs[t].state.ToDispatch?
  }

  predicate Uses(s: State, t: Txid, op: OutPoint) {
    t in s.txs && op in Ops(s.txs[t].FundingInputs())
  }

  /** `t` reserved `op` itself instead of inheriting it. */
  predicate Claims(s: State, t: Txid, op: OutPoint) {
    t in s.txs && op in Ops(s.txs[t].Claimed())
  }

  /** `y` is an RBF descendant of `x`. */
  predicate Ancestor(s: State, x: Txid, y: Txid) {
    y in s.lineage && x in s.lineage[y]
  }

  predicate Supersedes(s: State, r: Txid, t: Txid) {
    r in s.txs && s.txs[r].Supersedes(t)
  }

  /** The two replacement signals, read from the store. */
  ghost predicate Masked(s: State, t: Txid) {
    && t in s.txs
    && (s.txs[t].IsBeingReplaced() || exists r :: r in s.speedups && Live(s, r) && Supersedes(s, r, t))
  }

  /** No funding pass can hand `op` out. */
  predicate Reserved(s: State, op: OutPoint) {
    && (op in s.funding ==> s.funding[op].spent)
    && (op.txid in s.speedups && op.txid in s.txs ==> s.txs[op.txid].IsSpent())
  }

  // ---------------------------------------------------------------- structure

  ghost predicate KeysOk(s: State) {
    forall t :: t in s.txs ==> s.txs[t].txid == t
  }

  ghost predicate ListOk(s: State) {
    && NoDup(s.speedups)
    && (forall t :: t in s.speedups ==> IsSpeedup(s, t))
    && (forall t :: IsSpeedup(s, t) && !s.txs[t].state.Finalized? ==> t in s.speedups)
  }

  /** Chains are prefix-closed, so ancestry is a strict order ranked by chain length. */
  ghost predicate LineageOk(s: State) {
    && (forall t :: t in s.txs ==> (s.txs[t].kind.Speedup? <==> t in s.lineage))
    && (forall y, i :: y in s.lineage && 0 <= i < |s.lineage[y]| ==>
          s.lineage[y][i] in s.lineage && s.lineage[s.lineage[y][i]] == s.lineage[y][..i])
  }

  predicate ChainEnds(s: State, t: Txid)
    requires IsSpeedup(s, t)
  {
    && t in s.lineage
    && (s.txs[t].IsRBF() ==>
          |s.lineage[t]| > 0 && s.txs[t].Supersedes(s.lineage[t][|s.lineage[t]| - 1]))
    && (!s.txs[t].IsRBF() ==> s.lineage[t] == [])
  }

  ghost predicate RbfOk(s: State) {
    forall t :: IsSpeedup(s, t) ==> ChainEnds(s, t)
  }

  /** A speedup is listed after every speedup it descends from. */
  ghost predicate OrderOk(s: State) {
    forall i, j :: 0 <= i < j < |s.speedups| ==> !Ancestor(s, s.speedups[j], s.speedups[i])
  }

  /** One or two inputs; a second one is user-provided; an RBF appends its own inputs to inherited ones. */
  predicate InputsOf(s: State, t: Txid)
    requires IsSpeedup(s, t)
  {
    var r := s.txs[t];
    && 1 <= |r.FundingInputs()| <= 2
    && |r.tx.outputs| > 0
    && (|r.FundingInputs()| == 2 ==>
          r.FundingInputs()[0].op != r.FundingInputs()[1].op && r.FundingInputs()[1].op.txid !in s.lineage)
    && (r.IsRBF() ==> |r.Claimed()| < |r.FundingInputs()|
                      && r.FundingInputs()[|r.FundingInputs()| - |r.Claimed()|..] == r.Claimed())
  }

  predicate InheritsInputs(s: State, t: Txid)
    requires IsSpeedup(s, t)
  {
    var r := s.txs[t];
    r.IsRBF() && IsSpeedup(s, r.kind.speedup.predecessor) ==>
      r.FundingInputs() == s.txs[r.kind.speedup.predecessor].FundingInputs() + r.Claimed()
  }

  ghost predicate InputsOk(s: State) {
    forall t :: IsSpeedup(s, t) ==> InputsOf(s, t) && InheritsInputs(s, t)
  }

  /** An input produced by a listed speedup is that speedup's change output. */
  ghost predicate ChangeOk(s: State) {
    forall t, op :: Uses(s, t, op) && op.txid in s.speedups && op.txid in s.txs ==> op == s.txs[op.txid].ChangeOp()
  }

  predicate RecordOk(s: State, op: OutPoint)
    requires op in s.funding
  {
    && s.funding[op].utxo.op == op
    && op.txid !in s.speedups
    && (s.funding[op].fromSpeedup <==> op.txid in s.lineage)
  }

  /** The funding list is duplicate-free and in bijection with the records. */
  ghost predicate QueueOk(s: State) {
    && NoDup(s.queue)
    && (forall op :: op in s.queue <==> op in s.funding)
    && (forall op :: op in s.funding ==> RecordOk(s, op))
  }

  ghost predicate Structure(s: State) {
    && KeysOk(s)
    && ListOk(s)
    && LineageOk(s)
    && RbfOk(s)
    && OrderOk(s)
    && InputsOk(s)
    && ChangeOk(s)
    && QueueOk(s)
  }

  // ---------------------------------------------------------------- reservations

  /** Two live speedups share an input only along one RBF lineage. */
  ghost predicate SharingOk(s: State) {
    forall x, y, op :: x != y && Live(s, x) && Live(s, y) && Uses(s, x, op) && Uses(s, y, op) ==>
      Ancestor(s, x, y) || Ancestor(s, y, x)
  }

  /** A live speedup with a live descendant is being replaced. */
  ghost predicate MaskOk(s: State) {
    forall x, y :: Live(s, x) && Live(s, y) && Ancestor(s, x, y) ==> Masked(s, x)
  }

  /** A descendant keeps its ancestor's inputs and claims only new ones. */
  ghost predicate InheritOk(s: State) {
    && (forall x, y, op :: Live(s, x) && Live(s, y) && Ancestor(s, x, y) && Uses(s, x, op) ==> Uses(s, y, op))
    && (forall x, y, op :: Live(s, x) && Live(s, y) && Ancestor(s, x, y) && Claims(s, y, op) ==> !Uses(s, x, op))
  }

  /** A speedup waiting to be dispatched is not being replaced. */
  ghost predicate WaitingOk(s: State) {
    forall x :: Waiting(s, x) ==> !Masked(s, x)
  }

  /** An RBF the node has taken left its mark on its predecessor. */
  ghost predicate MarkOk(s: State) {
    forall x, p :: Live(s, x) && !Waiting(s, x) && Supersedes(s, x, p) && Live(s, p) ==> s.txs[p].IsBeingReplaced()
  }

  ghost predicate ReservedOk(s: State) {
    forall x, op :: Live(s, x) && Uses(s, x, op) ==> Reserved(s, op)
  }

  ghost predicate Reservations(s: State) {
    && SharingOk(s)
    && MaskOk(s)
    && InheritOk(s)
    && WaitingOk(s)
    && MarkOk(s)
    && ReservedOk(s)
  }

  // ---------------------------------------------------------------- lifecycle and pending parents

  predicate LifeOf(r: CoordinatedTx) {
    && (r.settledBlockHeight.Some? <==> r.state.Terminal())
    && (r.state.OnNode() ==> r.broadcastBlockHeight.Some?)
    && (r.state.OnNode() ==> r.failGuardUntil.None?)
  }

  ghost predicate LifecycleOk(s: State) {
    forall t :: t in s.txs ==> LifeOf(s.txs[t])
  }

  ghost predicate ParentsOk(s: State) {
    && NoDup(s.psp)
    && (forall t :: t in s.psp ==> t in s.txs && s.txs[t].kind.NeedsSpeedup?)
    && (forall t :: t in s.txs ==> NoDup(s.txs[t].Parents()))
  }

  predicate Prebuilt(s: State, t: Txid) {
    Waiting(s, t) && s.txs[t].broadcastBlockHeight.None?
  }

  ghost predicate OnePrebuilt(s: State) {
    forall x, y :: Prebuilt(s, x) && Prebuilt(s, y) ==> x == y
  }

  ghost predicate Inv(s: State) {
    && Structure(s)
    && Reservations(s)
    && LifecycleOk(s)
    && ParentsOk(s)
    && OnePrebuilt(s)
  }
}

/** Settling failures and their cascade (src/engines/common.rs) as functions of the state. */
module Failures {
  import opened Types
  import opened States
  import opened Funding

  function DispatchErrorNews(tx: CoordinatedTx): News {
    if tx.kind.Speedup? then SpeedupDispatchError(tx.txid) else DispatchError(tx.txid)
  }

  function SetReplacedBy(s: State, t: Txid, mark: Option<Txid>): State {
    if t in s.txs && s.txs[t].kind.Speedup? then
      Put(s, t, s.txs[t].WithContext(s.txs[t].kind.speedup.context.(replacedBy := mark)))
    else s
  }

  /** A CPFP gives back every input; an RBF gives back only what it claimed and unmasks its predecessor. */
  function ReleaseClaims(s: State, tx: CoordinatedTx): State {
    var released := ReleaseMarks(s, tx.Claimed());
    if tx.IsRBF() then SetReplacedBy(released, tx.kind.speedup.predecessor, None) else released
  }

  function SettleFailedDispatch(s: State, tx: CoordinatedTx, height: BlockHeight, fundingMissing: bool): State {
    var settled := AddNews(SettleTx(s, tx.txid, Failed, height), DispatchErrorNews(tx));
    var released := ReleaseClaims(settled, tx);
    if fundingMissing then RequeueProtocolParents(released, tx) else released
  }

  /** The speedups waiting to be dispatched. */
  function Pending(s: State): set<Txid> {
    set t | t in s.txs && t in s.speedups && s.txs[t].kind.Speedup? && s.txs[t].state.ToDispatch?
  }

  /** The waiting speedups of `all` that depend on `t`, in creation order. */
  function Victims(s: State, all: seq<CoordinatedTx>, t: Txid): (ds: seq<CoordinatedTx>)
    ensures forall d :: d in ds <==> d in all && d.txid in Pending(s) && d.DependsOn(t)
  {
    if all == [] then []
    else (if all[0].txid in Pending(s) && all[0].DependsOn(t) then [all[0]] else []) + Victims(s, all[1..], t)
  }

  predicate AllPending(s: State, ds: seq<CoordinatedTx>) {
    forall i :: 0 <= i < |ds| ==> ds[i].txid in Pending(s)
  }

  lemma SetSpentKeepsPending(s: State, op: OutPoint, spent: bool)
    ensures Pending(SetSpent(s, op, spent)) == Pending(s)
  {}

  lemma {:induction false} ReleaseMarksKeepsPending(s: State, us: seq<Utxo>)
    ensures Pending(ReleaseMarks(s, us)) == Pending(s)
    decreases |us|
  {
    if us != [] {
      SetSpentKeepsPending(s, us[0].op, false);
      ReleaseMarksKeepsPending(SetSpent(s, us[0].op, false), us[1..]);
    }
  }

  /** Settling one transaction takes exactly that transaction out of the waiting set. */
  lemma SettleShrinksPending(s: State, tx: CoordinatedTx, height: BlockHeight, fundingMissing: bool)
    ensures Pending(SettleFailedDispatch(s, tx, height, fundingMissing)) == Pending(s) - {tx.txid}
  {
    var settled := AddNews(SettleTx(s, tx.txid, Failed, height), DispatchErrorNews(tx));
    assert Pending(settled) == Pending(s) - {tx.txid};
    var marked := ReleaseMarks(settled, tx.Claimed());
    ReleaseMarksKeepsPending(settled, tx.Claimed());
    assert Pending(ReleaseClaims(settled, tx)) == Pending(marked);
  }

  lemma SubsetSize<T>(a: set<T>, b: set<T>)
    requires a <= b
    ensures |a| <= |b|
    ensures a != b ==> |a| < |b|
  {
    assert b == a + (b - a);
    assert |b| == |a| + |b - a|;
  }

  /** Settle `tx` and then, over a snapshot taken right after, every waiting speedup that depends on it. */
  function FailAndCascade(s: State, tx: CoordinatedTx, height: BlockHeight, fundingMissing: bool): (r: State)
    ensures Pending(r) <= Pending(s) - {tx.txid}
    decreases |Pending(s)|, if tx.txid in Pending(s) then 0 else 2, 0
  {
    SettleShrinksPending(s, tx, height, fundingMissing);
    var settled := SettleFailedDispatch(s, tx, height, fundingMissing);
    SubsetSize(Pending(settled), Pending(s));
    CascadeOver(settled, Victims(settled, SpeedupRecords(settled), tx.txid), height)
  }

  function CascadeOver(s: State, ds: seq<CoordinatedTx>, height: BlockHeight): (r: State)
    ensures Pending(r) <= Pending(s)
    decreases |Pending(s)|, if AllPending(s, ds) then 1 else 3, |ds|
  {
    if ds == [] then s
    else
      var next := FailAndCascade(s, ds[0], height, true);
      SubsetSize(Pending(next), Pending(s));
      CascadeOver(next, ds[1..], height)
  }
}

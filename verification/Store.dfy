/** The store as the mutable object the coordinator works on (src/core/storage.rs). Every method is proved against
    the function of the state it computes. */
module Stores {
  import opened Types
  import States

  class Store {
    var txs: map<Txid, CoordinatedTx>
    var speedups: seq<Txid>
    var psp: seq<Txid>
    var queue: seq<OutPoint>
    var funding: map<OutPoint, FundingData>
    var news: set<News>
    ghost var lineage: map<Txid, seq<Txid>>

    ghost function Value(): States.State
      reads this
    {
      States.State(txs, speedups, psp, queue, funding, news, lineage)
    }

    /** Records are keyed by their own txid. */
    ghost predicate Valid()
      reads this
    {
      forall t :: t in txs ==> txs[t].txid == t
    }

    constructor ()
      ensures Valid() && Value() == States.EMPTY
    {
      txs := map[];
      speedups := [];
      psp := [];
      queue := [];
      funding := map[];
      news := {};
      lineage := map[];
    }

    // -------------------------------------------------------------- records

    method AddNews(n: News)
      requires Valid()
      modifies this
      ensures Valid() && Value() == States.AddNews(old(Value()), n)
    {
      news := news + {n};
    }

    method AddNewsIf(n: Option<News>)
      requires Valid()
      modifies this
      ensures Valid() && Value() == if n.Some? then States.AddNews(old(Value()), n.value) else old(Value())
    {
      if n.Some? {
        AddNews(n.value);
      }
    }

    method UpdateTx(r: CoordinatedTx)
      requires Valid()
      modifies this
      ensures Valid() && Value() == States.Put(old(Value()), r.txid, r)
    {
      txs := txs[r.txid := r];
    }

    /** The check shared by all guarded transitions: refuses with news. */
    method Admit(t: Txid, next: TransactionState) returns (ok: bool)
      requires Valid()
      modifies this
      ensures Valid() && ok == States.RejectionNews(old(Value()), t, next).None?
      ensures Value() == if ok then old(Value()) else States.AddNews(old(Value()), States.RejectionNews(old(Value()), t, next).value)
      ensures ok ==> t in txs
    {
      ok := false;
      if t !in txs {
        AddNews(TxNotFound(t));
      } else if !txs[t].state.CanTransitionTo(next) {
        AddNews(InvalidStateTransition(t, txs[t].state, next));
      } else {
        ok := true;
      }
    }

    method UpdateTxState(t: Txid, next: TransactionState)
      requires Valid()
      modifies this
      ensures Valid() && Value() == States.UpdateTxState(old(Value()), t, next)
    {
      var ok := Admit(t, next);
      if ok {
        UpdateTx(txs[t].(state := next));
      }
    }

    method SettleTx(t: Txid, next: TransactionState, height: BlockHeight)
      requires Valid()
      modifies this
      ensures Valid() && Value() == States.SettleTx(old(Value()), t, next, height)
    {
      var ok := Admit(t, next);
      if ok {
        UpdateTx(txs[t].(state := next, settledBlockHeight := Some(height)));
      }
    }

    method RequeueNotFound(t: Txid, deadline: BlockHeight)
      requires Valid()
      modifies this
      ensures Valid() && Value() == States.RequeueNotFound(old(Value()), t, deadline)
    {
      var ok := Admit(t, ToDispatch);
      if ok {
        var r := txs[t];
        if r.failGuardUntil.None? {
          r := r.(failGuardUntil := Some(deadline));
        }
        UpdateTx(r.(state := ToDispatch));
      }
    }

    method MarkAsRetry(t: Txid)
      requires Valid()
      modifies this
      ensures Valid() && Value() == States.MarkAsRetry(old(Value()), t)
    {
      var ok := Admit(t, ToDispatch);
      if ok {
        UpdateTx(txs[t].(state := ToDispatch, retryCount := txs[t].retryCount + 1));
      }
    }

    // -------------------------------------------------------------- lists

    /** `retain`: drop the members of `gone`, keep the order. */
    static method Retain<T(==, !new)>(xs: seq<T>, gone: set<T>) returns (kept: seq<T>)
      ensures kept == Excluding(xs, gone)
    {
      hide Excluding;
      kept := [];
      var i := 0;
      assert xs[0..] == xs;
      while i < |xs|
        invariant 0 <= i <= |xs|
        invariant kept + Excluding(xs[i..], gone) == Excluding(xs, gone)
      {
        ExcludingStep(xs, i, gone);
        if xs[i] !in gone {
          kept := kept + [xs[i]];
        }
        i := i + 1;
      }
    }

    method GetSpeedupsOrdered() returns (result: seq<CoordinatedTx>)
      ensures result == States.SpeedupRecords(Value())
    {
      hide States.Records;
      var list := speedups;
      result := [];
      var i := 0;
      assert list[0..] == list;
      while i < |list|
        invariant 0 <= i <= |list|
        invariant result + States.Records(txs, list[i..]) == States.Records(txs, list)
      {
        RecordsStep(txs, list, i);
        if list[i] in txs {
          result := result + [txs[list[i]]];
        }
        i := i + 1;
      }
      RecordsEnd(txs, list);
    }

    method InsertSpeedup(r: CoordinatedTx, ghost chain: seq<Txid>)
      requires Valid()
      modifies this
      ensures Valid() && Value() == States.InsertSpeedup(old(Value()), r, chain)
    {
      UpdateTx(r);
      if r.txid !in speedups {
        speedups := speedups + [r.txid];
      }
      lineage := lineage[r.txid := chain];
    }

    method RemoveTx(t: Txid)
      requires Valid()
      modifies this
      ensures Valid() && Value() == States.RemoveTxs(old(Value()), {t})
    {
      txs := txs - {t};
      speedups := Retain(speedups, {t});
    }

    /** The parents covered by some speedup that has not settled. */
    method CollectLiveCovered() returns (covered: set<Txid>)
      ensures covered == States.LiveCovered(Value())
    {
      covered := {};
      var all := GetSpeedupsOrdered();
      var i := 0;
      while i < |all|
        invariant 0 <= i <= |all|
        invariant covered == set j, p | 0 <= j < i && !all[j].state.Terminal() && p in all[j].Parents() :: p
      {
        if !all[i].state.Terminal() {
          covered := covered + set p | p in all[i].Parents();
        }
        i := i + 1;
      }
    }

    /** One pass over the settled records; which one comes next is up to the storage backend. */
    method EvictStaleTxs(height: BlockHeight, maxTracking: nat)
      requires Valid()
      modifies this
      ensures Valid() && Value() == States.EvictStaleTxs(old(Value()), height, maxTracking)
    {
      hide Excluding, States.LiveCovered, States.Evict, States.RemoveTxs;
      ghost var s := Value();
      var settled := set t | t in txs && txs[t].state.Terminal();
      var covered := CollectLiveCovered();
      var pending := psp;
      ghost var gone: set<Txid> := {};
      EvictNone(s);
      while settled != {}
        invariant forall t :: t in settled ==> t in s.txs && s.txs[t].state.Terminal() && t !in gone
        invariant forall t :: t in s.txs && s.txs[t].state.Terminal() && t !in settled && t !in gone ==> !States.Evictable(s, t, height, maxTracking)
        invariant forall t :: t in gone ==> States.Evictable(s, t, height, maxTracking)
        invariant Value() == States.Evict(s, gone)
        invariant Valid()
        decreases |settled|
      {
        var t :| t in settled;
        settled := settled - {t};
        EvictReads(s, gone, t);
        var r := txs[t];
        if r.settledBlockHeight.Some? && SaturatingSub(height, r.settledBlockHeight.value) >= maxTracking
           && !(r.kind.NeedsSpeedup? && (t in pending || t in covered))
        {
          RemoveTx(t);
          AddNews(TransactionEvicted(t));
          EvictOneMore(s, gone, t);
          gone := gone + {t};
        }
      }
      assert gone == States.StaleTxs(s, height, maxTracking);
    }

    // -------------------------------------------------------------- pending speedup parents

    method AddPendingParent(t: Txid)
      requires Valid()
      modifies this
      ensures Valid() && Value() == States.AddPendingParent(old(Value()), t)
    {
      if t !in psp {
        psp := psp + [t];
      }
    }

    method PrependPending(ts: seq<Txid>)
      requires Valid()
      modifies this
      ensures Valid() && Value() == States.PrependPending(old(Value()), ts)
    {
      var added := Retain(ts, Elements(psp));
      psp := added + psp;
    }

    method RemovePendingParent(t: Txid)
      requires Valid()
      modifies this
      ensures Valid() && Value() == States.RemovePending(old(Value()), {t})
    {
      psp := Retain(psp, {t});
    }

    method RemovePendingParents(ts: seq<Txid>)
      requires Valid()
      modifies this
      ensures Valid() && Value() == States.RemovePending(old(Value()), Elements(ts))
    {
      ghost var s := Value();
      ghost var gone: set<Txid> := {};
      ExcludingNothing(psp);
      hide Excluding;
      var i := 0;
      while i < |ts|
        invariant 0 <= i <= |ts|
        invariant forall t :: t in gone <==> t in ts[..i]
        invariant Valid() && Value() == States.RemovePending(s, gone)
      {
        RemovePendingParent(ts[i]);
        ExcludingTwice(s.psp, gone, {ts[i]});
        gone := gone + {ts[i]};
        assert ts[..i + 1] == ts[..i] + [ts[i]];
        i := i + 1;
      }
      assert ts[..i] == ts;
      assert gone == Elements(ts);
    }

    /** Broadcast parents in queue order; Failed and missing ones are pruned on the way. */
    method GetPendingParents() returns (live: seq<CoordinatedTx>)
      requires Valid()
      modifies this
      ensures live == States.PendingParents(old(Value()), old(psp))
      ensures Valid() && Value() == States.PrunePending(old(Value()))
    {
      ghost var s := Value();
      var list := psp;
      live := [];
      ghost var gone: set<Txid> := {};
      ExcludingNothing(psp);
      hide Excluding, States.PendingParents;
      var i := 0;
      assert list[0..] == list;
      while i < |list|
        invariant 0 <= i <= |list|
        invariant forall t :: t in gone <==> t in list[..i] && States.Prunable(s, t)
        invariant Valid() && Value() == States.RemovePending(s, gone)
        invariant live + States.PendingParents(s, list[i..]) == States.PendingParents(s, list)
      {
        var t := list[i];
        PendingParentsStep(s, list, i);
        assert list[..i + 1] == list[..i] + [t];
        if t in txs && txs[t].state.OnNode() {
          live := live + [txs[t]];
        } else if t !in txs || txs[t].state.Failed? {
          RemovePendingParent(t);
          ExcludingTwice(s.psp, gone, {t});
          gone := gone + {t};
        }
        i := i + 1;
      }
      PendingParentsEnd(s, list);
      assert list[..i] == list;
      assert gone == set t | t in s.psp && States.Prunable(s, t);
    }

    method RequeueProtocolParents(failed: CoordinatedTx)
      requires Valid()
      modifies this
      ensures Valid() && Value() == States.RequeueProtocolParents(old(Value()), failed)
    {
      var toPrepend := FilterNeedsSpeedup(failed.Parents());
      PrependPending(toPrepend);
    }

    method FilterNeedsSpeedup(ts: seq<Txid>) returns (kept: seq<Txid>)
      ensures kept == States.StillNeedSpeedup(Value(), ts)
    {
      hide States.StillNeedSpeedup;
      kept := [];
      var i := 0;
      assert ts[0..] == ts;
      while i < |ts|
        invariant 0 <= i <= |ts|
        invariant kept + States.StillNeedSpeedup(Value(), ts[i..]) == States.StillNeedSpeedup(Value(), ts)
      {
        StillNeedStep(Value(), ts, i);
        if ts[i] in txs && txs[ts[i]].kind.NeedsSpeedup? {
          kept := kept + [ts[i]];
        }
        i := i + 1;
      }
      StillNeedEnd(Value(), ts);
    }

    // -------------------------------------------------------------- funding queue

    method AppendFunding(utxo: Utxo)
      requires Valid()
      modifies this
      ensures Valid() && Value() == States.AppendFunding(old(Value()), utxo)
    {
      funding := funding[utxo.op := FundingData(utxo, false, false)];
      if utxo.op !in queue {
        queue := queue + [utxo.op];
      }
    }

    method SetSpent(op: OutPoint, spent: bool)
      requires Valid()
      modifies this
      ensures Valid() && Value() == States.SetSpent(old(Value()), op, spent)
    {
      if op in funding {
        if funding[op].spent != spent {
          funding := funding[op := funding[op].(spent := spent)];
        } else {
          assert funding[op := funding[op].(spent := spent)] == funding;
        }
      } else if op.txid in txs && txs[op.txid].kind.Speedup? {
        var r := txs[op.txid];
        if r.IsSpent() != spent {
          UpdateTx(r.WithContext(r.kind.speedup.context.(spent := spent)));
        } else {
          assert r.WithContext(r.kind.speedup.context.(spent := spent)) == r;
          assert txs[op.txid := r] == txs;
        }
      }
    }

    method IsSpeedupDerived(op: OutPoint) returns (derived: bool)
      ensures derived == States.IsSpeedupDerived(Value(), op)
    {
      if op in funding {
        return funding[op].fromSpeedup;
      }
      return op.txid in txs && txs[op.txid].kind.Speedup?;
    }

    method FindFirst(ops: set<OutPoint>) returns (pos: nat)
      ensures pos == States.FirstIn(queue, ops)
    {
      pos := 0;
      while pos < |queue| && queue[pos] !in ops
        invariant pos <= |queue|
        invariant forall j :: 0 <= j < pos ==> queue[j] !in ops
      {
        pos := pos + 1;
      }
    }

    method ReplaceFundingOnFinalize(t: Txid)
      requires Valid()
      modifies this
      ensures Valid() && Value() == States.ReplaceFundingOnFinalize(old(Value()), t)
    {
      if t !in txs || !txs[t].kind.Speedup? || txs[t].tx.outputs == [] {
        return;
      }
      var r := txs[t];
      var consumed := Ops(r.FundingInputs());
      var pos := FindFirst(consumed);
      if pos == |queue| {
        return;
      }
      hide Excluding, States.FirstIn;
      SwapFunding(t, r, consumed, pos);
    }

    method SwapFunding(t: Txid, r: CoordinatedTx, consumed: set<OutPoint>, pos: nat)
      requires Valid() && r.tx.outputs != []
      modifies this
      ensures Valid() && Value() == States.SwapFunding(old(Value()), t, r, consumed, pos)
    {
      hide Excluding;
      var rest := Retain(queue, consumed);
      funding := funding - (Elements(queue) * consumed);
      funding := funding[r.ChangeOp() := FundingData(r.ChangeUtxo(), r.IsSpent(), true)];
      queue := if pos <= |rest| then rest[..pos] + [r.ChangeOp()] + rest[pos..] else rest + [r.ChangeOp()];
      speedups := Retain(speedups, {t});
    }
  }

  // ---------------------------------------------------------------- one turn of a loop

  lemma EvictNone(s: States.State)
    ensures States.Evict(s, {}) == s
  {
    ExcludingNothing(s.speedups);
    assert s.txs - {} == s.txs && s.news + States.EvictionNews({}) == s.news;
  }

  lemma EvictOneMore(s: States.State, gone: set<Txid>, t: Txid)
    ensures States.AddNews(States.RemoveTxs(States.Evict(s, gone), {t}), TransactionEvicted(t)) == States.Evict(s, gone + {t})
  {
    ExcludingTwice(s.speedups, gone, {t});
    assert s.txs - gone - {t} == s.txs - (gone + {t});
    assert s.news + States.EvictionNews(gone) + {TransactionEvicted(t)} == s.news + States.EvictionNews(gone + {t});
  }

  lemma EvictReads(s: States.State, gone: set<Txid>, t: Txid)
    requires t in s.txs && t !in gone
    ensures t in States.Evict(s, gone).txs && States.Evict(s, gone).txs[t] == s.txs[t]
  {}

  lemma ExcludingStep<T(!new)>(xs: seq<T>, i: nat, gone: set<T>)
    requires i < |xs|
    ensures Excluding(xs[i..], gone) == (if xs[i] in gone then [] else [xs[i]]) + Excluding(xs[i + 1..], gone)
    ensures Excluding(xs[|xs|..], gone) == []
  {
    assert xs[i..][1..] == xs[i + 1..];
  }

  lemma RecordsStep(txs: map<Txid, CoordinatedTx>, ids: seq<Txid>, i: nat)
    requires i < |ids|
    ensures States.Records(txs, ids[i..]) == (if ids[i] in txs then [txs[ids[i]]] else []) + States.Records(txs, ids[i + 1..])
  {
    assert ids[i..][1..] == ids[i + 1..];
  }

  lemma RecordsEnd(txs: map<Txid, CoordinatedTx>, ids: seq<Txid>)
    ensures States.Records(txs, ids[|ids|..]) == []
  {}

  lemma StillNeedStep(s: States.State, ts: seq<Txid>, i: nat)
    requires i < |ts|
    ensures States.StillNeedSpeedup(s, ts[i..])
            == (if ts[i] in s.txs && s.txs[ts[i]].kind.NeedsSpeedup? then [ts[i]] else []) + States.StillNeedSpeedup(s, ts[i + 1..])
  {
    assert ts[i..][1..] == ts[i + 1..];
  }

  lemma StillNeedEnd(s: States.State, ts: seq<Txid>)
    ensures States.StillNeedSpeedup(s, ts[|ts|..]) == []
  {}

  lemma PendingParentsStep(s: States.State, ids: seq<Txid>, i: nat)
    requires i < |ids|
    ensures States.PendingParents(s, ids[i..])
            == (if ids[i] in s.txs && s.txs[ids[i]].state.OnNode() then [s.txs[ids[i]]] else [])
               + States.PendingParents(s, ids[i + 1..])
  {
    assert ids[i..][1..] == ids[i + 1..];
  }

  lemma PendingParentsEnd(s: States.State, ids: seq<Txid>)
    ensures States.PendingParents(s, ids[|ids|..]) == []
  {}

  lemma {:induction false} ExcludingTwice<T(!new)>(xs: seq<T>, a: set<T>, b: set<T>)
    ensures Excluding(Excluding(xs, a), b) == Excluding(xs, a + b)
  {
    if xs != [] {
      ExcludingTwice(xs[1..], a, b);
    }
  }

  lemma {:induction false} ExcludingNothing<T(!new)>(xs: seq<T>)
    ensures Excluding(xs, {}) == xs
  {
    if xs != [] {
      ExcludingNothing(xs[1..]);
    }
  }
}

/** Steps 1 and 3 of a tick in their imperative form (src/engines/transaction_engine.rs). */
module TransactionEngines {
  import opened Types
  import opened Oracles
  import States
  import Fees
  import Dispatching
  import Engines
  import opened Stores
  import opened Managers
  import opened Contexts

  // ---------------------------------------------------------------- filters over snapshots

  /** The source's `filter` and `collect`, as a loop. */
  method Filter(rs: seq<CoordinatedTx>, keep: CoordinatedTx -> bool) returns (kept: seq<CoordinatedTx>)
    ensures kept == Filtered(rs, keep)
  {
    kept := [];
    var i := 0;
    assert rs[0..] == rs;
    while i < |rs|
      invariant 0 <= i <= |rs|
      invariant kept + Filtered(rs[i..], keep) == Filtered(rs, keep)
    {
      assert rs[i..][1..] == rs[i + 1..];
      if keep(rs[i]) {
        kept := kept + [rs[i]];
      }
      i := i + 1;
    }
  }

  function Filtered(rs: seq<CoordinatedTx>, keep: CoordinatedTx -> bool): seq<CoordinatedTx> {
    if rs == [] then [] else (if keep(rs[0]) then [rs[0]] else []) + Filtered(rs[1..], keep)
  }

  lemma {:induction false} RetryFilterIsFilter(rs: seq<CoordinatedTx>, ready: bool)
    ensures Filtered(rs, (r: CoordinatedTx) => r.retryCount == 0 || ready) == Dispatching.RetryFilter(rs, ready)
  {
    if rs != [] {
      RetryFilterIsFilter(rs[1..], ready);
    }
  }

  lemma {:induction false} WaitingIsFilter(rs: seq<CoordinatedTx>)
    ensures Filtered(rs, (r: CoordinatedTx) => r.state.ToDispatch?) == Engines.WaitingRecords(rs)
  {
    if rs != [] {
      WaitingIsFilter(rs[1..]);
    }
  }

  lemma {:induction false} FilteredAppend(a: seq<CoordinatedTx>, b: seq<CoordinatedTx>, keep: CoordinatedTx -> bool)
    ensures Filtered(a + b, keep) == Filtered(a, keep) + Filtered(b, keep)
  {
    if a == [] {
      assert a + b == b;
    } else {
      assert (a + b)[1..] == a[1..] + b;
      FilteredAppend(a[1..], b, keep);
    }
  }

  lemma {:induction false} LiveIsFilter(all: seq<CoordinatedTx>, n: nat)
    requires n <= |all|
    ensures Filtered(all[..n], (r: CoordinatedTx) => r.IsLiveInMempool(all)) == Engines.LiveInMempool(all, n)
  {
    var keep := (r: CoordinatedTx) => r.IsLiveInMempool(all);
    if n > 0 {
      LiveIsFilter(all, n - 1);
      assert all[..n] == all[..n - 1] + [all[n - 1]];
      FilteredAppend(all[..n - 1], [all[n - 1]], keep);
      assert Filtered([all[n - 1]], keep) == if keep(all[n - 1]) then [all[n - 1]] else [];
    }
  }

  /** The records listed by `order`, in that order. */
  lemma {:induction false} ToReviewIsFilter(s: States.State, order: seq<Txid>)
    ensures Filtered(States.Records(s.txs, order), (r: CoordinatedTx) => !r.kind.Speedup? && Engines.InFlight(r))
            == Engines.ToReview(s, order)
  {
    if order != [] {
      ToReviewIsFilter(s, order[1..]);
      FilteredAppend(if order[0] in s.txs then [s.txs[order[0]]] else [], States.Records(s.txs, order[1..]),
                     (r: CoordinatedTx) => !r.kind.Speedup? && Engines.InFlight(r));
    }
  }

  lemma {:induction false} ReadyIsFilter(s: States.State, order: seq<Txid>, height: BlockHeight)
    ensures Filtered(States.Records(s.txs, order),
                     (r: CoordinatedTx) => !r.kind.Speedup? && r.state.ToDispatch? && r.IsReadyToDispatch(height))
            == Engines.ReadyToDispatch(s, order, height)
  {
    if order != [] {
      ReadyIsFilter(s, order[1..], height);
      FilteredAppend(if order[0] in s.txs then [s.txs[order[0]]] else [], States.Records(s.txs, order[1..]),
                     (r: CoordinatedTx) => !r.kind.Speedup? && r.state.ToDispatch? && r.IsReadyToDispatch(height));
    }
  }

  // ---------------------------------------------------------------- client transactions

  class TransactionEngine {
    const ctx: EngineContext

    constructor (ctx: EngineContext)
      ensures this.ctx == ctx
    {
      this.ctx := ctx;
    }

    method ListTxs(order: seq<Txid>) returns (rs: seq<CoordinatedTx>)
      ensures rs == States.Records(ctx.storage.txs, order)
    {
      hide States.Records;
      rs := [];
      var i := 0;
      assert order[0..] == order;
      while i < |order|
        invariant 0 <= i <= |order|
        invariant rs + States.Records(ctx.storage.txs, order[i..]) == States.Records(ctx.storage.txs, order)
      {
        RecordsStep(ctx.storage.txs, order, i);
        if order[i] in ctx.storage.txs {
          rs := rs + [ctx.storage.txs[order[i]]];
        }
        i := i + 1;
      }
      RecordsEnd(ctx.storage.txs, order);
    }

    method ReviewTransaction(status: Txid -> ChainStatus, tx: CoordinatedTx, height: BlockHeight)
      requires ctx.Valid()
      modifies ctx.storage
      ensures ctx.Valid() && ctx.Value() == Engines.ReviewTransaction(old(ctx.Value()), ctx.cfg, status, tx, height)
    {
      match status(tx.txid)
      case SeenInMempool =>
        if tx.state.Confirmed? {
          ctx.MarkReorg(tx, height);
        } else if tx.IsStuckInMempool(height) {
          ctx.storage.AddNews(TransactionStuckInMempool(tx.txid));
        }
      case NotFound => ctx.storage.RequeueNotFound(tx.txid, height + ctx.cfg.maxMonitoringConfirmations);
      case Settled => ctx.storage.SettleTx(tx.txid, Finalized, height);
      case Mined => ctx.storage.UpdateTxState(tx.txid, Confirmed);
      case Orphaned => ctx.storage.UpdateTxState(tx.txid, InMempool);
      case Unclear =>
    }

    /** Step 1. */
    method ReviewActive(status: Txid -> ChainStatus, order: seq<Txid>, height: BlockHeight)
      requires ctx.Valid()
      modifies ctx.storage
      ensures ctx.Valid() && ctx.Value() == Engines.ReviewActive(old(ctx.Value()), ctx.cfg, status, order, height)
    {
      hide Engines.ReviewTransaction, States.EvictStaleTxs, States.Records, Filtered;
      ctx.storage.EvictStaleTxs(height, ctx.cfg.maxTrackingConfirmations);
      ghost var kept := ctx.Value();
      var active := ListTxs(order);
      var txs := Filter(active, (r: CoordinatedTx) => !r.kind.Speedup? && Engines.InFlight(r));
      ToReviewIsFilter(kept, order);
      var i := 0;
      assert txs[0..] == txs;
      while i < |txs|
        invariant 0 <= i <= |txs| && ctx.Valid()
        invariant Engines.ReviewTransactions(ctx.Value(), ctx.cfg, status, txs[i..], height)
                  == Engines.ReviewTransactions(kept, ctx.cfg, status, txs, height)
      {
        assert txs[i..][1..] == txs[i + 1..];
        ReviewTransaction(status, txs[i], height);
        i := i + 1;
      }
    }

    /** Step 3. */
    method DispatchPending(node: Node, order: seq<Txid>, retryReady: bool, estimate: Option<nat>, height: BlockHeight)
      requires ctx.Valid()
      modifies ctx.storage
      ensures ctx.Valid()
      ensures ctx.Value() == Engines.DispatchPending(old(ctx.Value()), ctx.cfg, node, order, retryReady, estimate, height)
    {
      hide Engines.HandleAll, Dispatching.DispatchAll, Engines.ReadyToDispatch, Filtered, Fees.NetworkFeeRate, States.Records;
      var active := ListTxs(order);
      var ready := Filter(active, (r: CoordinatedTx) => !r.kind.Speedup? && r.state.ToDispatch? && r.IsReadyToDispatch(height));
      ReadyIsFilter(ctx.Value(), order, height);
      if ready == [] {
        return;
      }
      var rate, news := GetNetworkFeeRate(ctx.cfg, estimate);
      ctx.storage.AddNewsIf(news);
      var batch := Filter(ready, (r: CoordinatedTx) => r.retryCount == 0 || retryReady);
      RetryFilterIsFilter(ready, retryReady);
      var results := ctx.Dispatch(node, batch);
      ctx.HandleAll(node, results, height, (tx: CoordinatedTx) => Fees.ComputeFeeForTx(tx.tx, rate));
    }
  }
}

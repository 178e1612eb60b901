/** The coordinator's public calls in their imperative form (src/coordinator.rs). */
module Coordinators {
  import opened Types
  import opened Oracles
  import States
  import Engines
  import Invariants
  import ReviewLaws
  import Runs
  import Ticks
  import opened Stores
  import opened Managers
  import opened Contexts
  import opened TransactionEngines
  import opened SpeedupEngines

  class Coordinator {
    const ctx: EngineContext
    const txEngine: TransactionEngine
    const speedupEngine: SpeedupEngine

    constructor (cfg: Config)
      ensures fresh(ctx.storage) && ctx.cfg == cfg && Valid() && ctx.Value() == States.EMPTY
    {
      var storage := new Store();
      var context := new EngineContext(cfg, storage);
      ctx := context;
      txEngine := new TransactionEngine(context);
      speedupEngine := new SpeedupEngine(context);
    }

    /** Both engines share one store. */
    ghost predicate Valid()
      reads ctx.storage
    {
      ctx.Valid() && txEngine.ctx == ctx && speedupEngine.ctx == ctx
    }

    /** The strict six-step pipeline. */
    method Tick(i: Ticks.TickInput)
      requires Valid() && Invariants.Inv(ctx.Value()) && NoDup(i.reviewOrder)
      modifies ctx.storage
      ensures Valid() && ctx.Value() == Ticks.Tick(old(ctx.Value()), ctx.cfg, i)
      ensures ctx.cfg.Valid() && Runs.AdmissibleRun(old(ctx.Value()), ctx.cfg, Ticks.TickEvents(old(ctx.Value()), ctx.cfg, i)) ==>
                Invariants.Inv(ctx.Value())
    {
      hide Invariants.Inv, NoDup, Engines.ReviewActive, Engines.ReviewSpeedups, Engines.DispatchPending;
      hide Engines.DispatchPendingSpeedups, Engines.BoostIfStale, Engines.CreateCpfpBatch, Engines.BoostFailed;
      hide Runs.AdmissibleRun, Runs.Run, Ticks.TickEvents;
      ReviewLaws.ReviewActiveKeepsInv(ctx.Value(), ctx.cfg, i.clientStatus, i.reviewOrder, i.height);
      txEngine.ReviewActive(i.clientStatus, i.reviewOrder, i.height);
      speedupEngine.ReviewSpeedups(i.speedupStatus, i.height);
      txEngine.DispatchPending(i.clientNode, i.dispatchOrder, i.clientRetry, i.clientEstimate, i.height);
      var boostFailed := speedupEngine.DispatchPendingSpeedups(i.speedupNode, i.speedupRetry, i.height);
      speedupEngine.BoostIfStale(i.boostBuilder, i.boostEstimate, boostFailed, i.height);
      speedupEngine.CreateCpfpBatch(i.cpfpBuilder, i.cpfpEstimate, i.height);
      Ticks.TickIsRun(old(ctx.Value()), ctx.cfg, i);
      if ctx.cfg.Valid() && Runs.AdmissibleRun(old(ctx.Value()), ctx.cfg, Ticks.TickEvents(old(ctx.Value()), ctx.cfg, i)) {
        Runs.RunKeepsInv(old(ctx.Value()), ctx.cfg, Ticks.TickEvents(old(ctx.Value()), ctx.cfg, i));
      }
    }

    method RegisterTx(g: Engines.Registration, estimate: Option<nat>, height: BlockHeight)
      requires Valid()
      modifies ctx.storage
      ensures Valid() && ctx.Value() == Engines.Register(old(ctx.Value()), ctx.cfg, g, estimate, height)
    {
      if g.txid in ctx.storage.txs {
        return;
      }
      var target := if g.target.Some? then g.target.value else height;
      var rate, _ := GetNetworkFeeRate(ctx.cfg, estimate);
      var r := CoordinatedTx(g.txid, g.tx, if g.needsSpeedup then NeedsSpeedup else Normal, ToDispatch, target,
                             g.stuckInMempoolBlocks, None, None, None, 0, Engines.Fees.ComputeFeeForTx(g.tx, rate));
      ctx.storage.UpdateTx(r);
      if g.needsSpeedup {
        ctx.storage.AddPendingParent(g.txid);
      }
    }

    method AddFunding(utxo: Utxo)
      requires Valid()
      modifies ctx.storage
      ensures Valid() && ctx.Value() == Engines.AddFunding(old(ctx.Value()), ctx.cfg, utxo)
    {
      if utxo.amount < ctx.cfg.minFundingAmount {
        ctx.storage.AddNews(InvalidFundingUtxo(utxo.amount, ctx.cfg.minFundingAmount));
      } else {
        ctx.storage.AppendFunding(utxo);
      }
    }

    /** Classify every request first, then drop the eligible ones. */
    method CancelTransactions(txids: seq<Txid>)
      requires Valid()
      modifies ctx.storage
      ensures Valid() && ctx.Value() == Engines.Cancel(old(ctx.Value()), txids)
    {
      ghost var s := ctx.Value();
      var eligible: seq<Txid> := [];
      var i := 0;
      assert s.news + Engines.RefusalNews(s, txids[..0]) == s.news;
      while i < |txids|
        invariant 0 <= i <= |txids| && Valid()
        invariant forall t :: t in eligible <==> t in txids[..i] && Engines.Cancellable(s, t)
        invariant ctx.Value() == s.(news := s.news + Engines.RefusalNews(s, txids[..i]))
      {
        var t := txids[i];
        assert txids[..i + 1] == txids[..i] + [t];
        RefusalStep(s, txids[..i], t);
        var r := ctx.storage.txs;
        if t in r && !r[t].kind.Speedup? && r[t].state.ToDispatch? {
          eligible := eligible + [t];
        } else {
          ctx.storage.AddNews(InvalidCancel(t));
        }
        i := i + 1;
      }
      assert txids[..i] == txids;
      assert Elements(eligible) == Engines.Eligible(s, txids);
      ctx.storage.RemovePendingParents(eligible);
      ghost var taken := ctx.Value();
      RemoveNothing(taken);
      var j := 0;
      while j < |eligible|
        invariant 0 <= j <= |eligible| && Valid()
        invariant ctx.Value() == States.RemoveTxs(taken, Elements(eligible[..j]))
      {
        ctx.storage.RemoveTx(eligible[j]);
        RemoveOneMore(taken, Elements(eligible[..j]), eligible[j]);
        assert Elements(eligible[..j]) + {eligible[j]} == Elements(eligible[..j + 1]);
        j := j + 1;
      }
      assert eligible[..j] == eligible;
    }
  }

  lemma RefusalStep(s: States.State, ts: seq<Txid>, t: Txid)
    ensures Engines.RefusalNews(s, ts + [t])
            == Engines.RefusalNews(s, ts) + if Engines.Cancellable(s, t) then {} else {InvalidCancel(t)}
  {}

  lemma RemoveNothing(s: States.State)
    ensures States.RemoveTxs(s, Elements([])) == s
  {
    ExcludingNothing(s.speedups);
    assert Elements<Txid>([]) == {};
    assert s.txs - {} == s.txs;
  }

  lemma RemoveOneMore(s: States.State, gone: set<Txid>, t: Txid)
    ensures States.RemoveTxs(States.RemoveTxs(s, gone), {t}) == States.RemoveTxs(s, gone + {t})
  {
    ExcludingTwice(s.speedups, gone, {t});
    assert s.txs - gone - {t} == s.txs - (gone + {t});
  }
}

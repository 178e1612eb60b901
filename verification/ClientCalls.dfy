/** What the client calls change and what they leave (src/coordinator.rs:272-281, 350-483). */
module ClientCalls {
  import opened Types
  import opened Oracles
  import opened States
  import opened Engines
  import opened Invariants
  import opened Runs
  import opened FeeLaws
  import opened LifeLaws

  /** A registered transaction waits from its target height on, priced at the current rate. */
  predicate IsRegistered(cfg: Config, g: Registration, estimate: Option<nat>, height: BlockHeight, r: CoordinatedTx) {
    && r.txid == g.txid && r.tx == g.tx
    && r.kind == (if g.needsSpeedup then NeedsSpeedup else Normal)
    && LifeIn(r) == Life(ToDispatch, match g.target case Some(h) => h case None => height, g.stuckInMempoolBlocks,
                         None, None, None, 0, FeeAtRate(r, NetworkRate(cfg, estimate)))
  }

  /** Registering a known txid changes nothing; a new one adds its record, and queues it once when it needs a speedup. */
  lemma RegisterStep(s: State, cfg: Config, e: Event)
    requires Inv(s) && e.RegisterEvent?
    ensures var s' := Step(s, cfg, e);
            var g := e.registration;
      && (g.txid in s.txs ==> s' == s)
      && (g.txid !in s.txs ==>
            && g.txid in s'.txs && IsRegistered(cfg, g, e.estimate, e.height, s'.txs[g.txid])
            && s'.txs - {g.txid} == s.txs
            && s'.psp == s.psp + (if g.needsSpeedup then [g.txid] else [])
            && s' == s.(txs := s'.txs, psp := s'.psp))
  {
    assert ParentsOk(s);
    hide Inv, NetworkRate;
    NetworkRateIs(cfg, e.estimate);
  }

  /** A UTXO below the minimum is refused with news; any other is appended to the queue, unspent and user-provided. */
  lemma AddFundingStep(s: State, cfg: Config, e: Event)
    requires Inv(s) && cfg.Valid() && Admissible(s, cfg, e) && e.AddFundingEvent?
    ensures var s' := Step(s, cfg, e);
      && (e.utxo.amount < cfg.minFundingAmount ==>
            s' == s.(news := s.news + {InvalidFundingUtxo(e.utxo.amount, cfg.minFundingAmount)}))
      && (e.utxo.amount >= cfg.minFundingAmount ==>
            && e.utxo.op !in s.funding
            && s' == s.(queue := s.queue + [e.utxo.op], funding := s.funding[e.utxo.op := FundingData(e.utxo, false, false)]))
  {
    assert QueueOk(s);
    hide Inv;
  }

  /** A cancellation removes exactly the listed client transactions that were never sent, takes them off the pending list and
      leaves every other record as it is; every other listed txid is answered with news. */
  lemma CancelStep(s: State, cfg: Config, e: Event, t: Txid)
    requires Inv(s) && e.CancelEvent?
    ensures var s' := Step(s, cfg, e);
            var cancelled := t in e.txids && t in s.txs && !s.txs[t].kind.Speedup? && s.txs[t].state.ToDispatch?;
      && (t in s'.txs <==> t in s.txs && !cancelled)
      && (t in s'.txs ==> s'.txs[t] == s.txs[t])
      && (t in s'.psp <==> t in s.psp && !cancelled)
      && s'.speedups == s.speedups && s'.queue == s.queue && s'.funding == s.funding
      && (InvalidCancel(t) in s'.news <==> InvalidCancel(t) in s.news || (t in e.txids && !cancelled))
  {
    assert ListOk(s);
    hide Inv;
    NoSpeedupCancelled(s.speedups, Eligible(s, e.txids));
  }

  lemma {:induction false} NoSpeedupCancelled(speedups: seq<Txid>, gone: set<Txid>)
    requires forall t :: t in speedups ==> t !in gone
    ensures Excluding(speedups, gone) == speedups
  {
    if speedups != [] {
      NoSpeedupCancelled(speedups[1..], gone);
    }
  }
}

/** Steps 5 and 6 and the client operations keep the invariant. */
module CreationLaws {
  import opened Types
  import opened Oracles
  import opened States
  import opened Fees
  import opened Funding
  import opened Failures
  import opened Engines
  import opened FeeLaws
  import opened Invariants
  import opened Evolution
  import opened FailureLaws
  import opened GrowthLaws
  import opened BuildLaws
  import opened DispatchLaws

  /** H1: whatever the builder answers in this step carries a txid never seen before. */
  ghost predicate FreshBuilder(s: State, b: Builder) {
    forall call, us, fee :: FreshTxid(s, b.build(call, us, fee).txid)
  }

  // ---------------------------------------------------------------- a built speedup may be inserted

  lemma {:induction false} ClaimKeepsMarks(s: State, us: seq<Utxo>, t: Txid)
    requires t in s.txs
    ensures t in Claim(s, us).txs && Claim(s, us).txs[t].IsBeingReplaced() == s.txs[t].IsBeingReplaced()
    decreases |us|
  {
    if us != [] {
      ClaimKeepsMarks(s, us[..|us| - 1], t);
      SetSpentFrame(Claim(s, us[..|us| - 1]), us[|us| - 1].op, true);
      hide Evolves;
    }
  }

  lemma ClaimKeepsMasked(s: State, us: seq<Utxo>, t: Txid)
    requires Inv(s) && t in s.txs
    ensures Masked(Claim(s, us), t) == Masked(s, t)
  {
    var s' := Claim(s, us);
    ClaimKeepsInv(s, us);
    ClaimKeepsMarks(s, us, t);
    EvolvesReadsSame(s, s');
    hide Claim, Inv;
    assert forall x :: Live(s', x) == Live(s, x);
    assert forall r :: (r in s'.speedups && Live(s', r) && Supersedes(s', r, t))
                       == (r in s.speedups && Live(s, r) && Supersedes(s, r, t));
  }

  lemma FreshEvolves(s: State, s': State, t: Txid)
    requires Evolves(s, s') && FreshTxid(s, t)
    ensures FreshTxid(s', t)
  {
    EvolvesReadsSame(s, s');
    hide SameShape;
  }

  /** The inputs of a built speedup: its own claims, after the predecessor's inputs when it replaces one. */
  ghost predicate BuiltInputs(s: State, r: CoordinatedTx) {
    && |r.FundingInputs()| <= 2
    && Claimable(s, r.Claimed())
    && (if r.IsRBF() then
          var p := r.kind.speedup.predecessor;
          Live(s, p) && !Masked(s, p) && r.FundingInputs() == s.txs[p].FundingInputs() + r.Claimed()
        else
          1 <= |r.FundingInputs()|)
    && (|r.FundingInputs()| == 2 && |r.Claimed()| > 0 ==>
          r.FundingInputs()[1].op in s.funding && !s.funding[r.FundingInputs()[1].op].fromSpeedup)
  }

  ghost predicate NewRecord(s: State, r: CoordinatedTx) {
    && FreshTxid(s, r.txid)
    && r.kind.Speedup?
    && r.state.ToDispatch?
    && LifeOf(r)
    && |r.tx.outputs| > 0
    && !r.IsBeingReplaced()
    && NoDup(r.Parents())
  }

  lemma ClaimedAreUnused(s: State, r: CoordinatedTx, x: Txid, op: OutPoint)
    requires ReservedOk(s) && Claimable(s, r.Claimed()) && Live(s, x) && op in Ops(r.Claimed())
    ensures !Uses(s, x, op) && OnOffer(s, op)
  {
    var i :| 0 <= i < |r.Claimed()| && r.Claimed()[i].op == op;
    OfferIsUnused(s, op, x);
  }

  lemma InputFromBoth(s: State, r: CoordinatedTx, op: OutPoint)
    requires BuiltInputs(s, r) && op in Ops(r.FundingInputs())
    ensures op in Ops(r.Claimed()) || (r.IsRBF() && Uses(s, r.kind.speedup.predecessor, op))
  {
    if r.IsRBF() {
      OpsPrefix(s.txs[r.kind.speedup.predecessor].FundingInputs(), r.Claimed());
    }
  }

  lemma OfferFacts(s: State, op: OutPoint, t: Txid)
    requires ListOk(s) && QueueOk(s) && OnOffer(s, op) && FreshTxid(s, t)
    ensures op.txid != t
    ensures op.txid in s.speedups && op.txid in s.txs ==> op == s.txs[op.txid].ChangeOp()
  {
    assert op in s.funding ==> RecordOk(s, op);
  }

  /** Each input is reserved once claimed, is not the new transaction's own, and names a change output. */
  lemma BuiltInputReady(s: State, r: CoordinatedTx, op: OutPoint)
    requires Inv(s) && NewRecord(s, r) && BuiltInputs(s, r) && op in Ops(r.FundingInputs())
    ensures Reserved(Claim(s, r.Claimed()), op)
    ensures op.txid != r.txid
    ensures op.txid in s.speedups && op.txid in s.txs ==> op == s.txs[op.txid].ChangeOp()
  {
    ClaimKeepsInv(s, r.Claimed());
    var s' := Claim(s, r.Claimed());
    InputFromBoth(s, r, op);
    hide LineageOk, RbfOk, OrderOk, InputsOk, SharingOk, MaskOk, InheritOk, WaitingOk, MarkOk;
    hide LifecycleOk, ParentsOk, OnePrebuilt, Claim, Masked;
    if op in Ops(r.Claimed()) {
      ClaimReserves(s, r.Claimed(), op);
      var i :| 0 <= i < |r.Claimed()| && r.Claimed()[i].op == op;
      OfferFacts(s, op, r.txid);
    } else {
      var p := r.kind.speedup.predecessor;
      EvolvesReadsSame(s, s');
      hide ListOk, QueueOk, Evolves;
      assert Live(s', p) && Uses(s', p, op);
    }
  }

  lemma SecondInput(s: State, r: CoordinatedTx)
    requires Inv(s) && BuiltInputs(s, r) && |r.FundingInputs()| == 2
    ensures r.FundingInputs()[0].op != r.FundingInputs()[1].op
    ensures r.FundingInputs()[1].op.txid !in s.lineage
  {
    var us := r.FundingInputs();
    hide SharingOk, MaskOk, InheritOk, WaitingOk, MarkOk, LifecycleOk, ParentsOk, OnePrebuilt, Masked;
    if |r.Claimed()| > 0 {
      assert RecordOk(s, us[1].op);
    }
    if r.IsRBF() {
      var p := r.kind.speedup.predecessor;
      assert InputsOf(s, p);
      if |r.Claimed()| == 0 {
        assert us == s.txs[p].FundingInputs();
      } else {
        assert us[0] == s.txs[p].FundingInputs()[0] && us[1] == r.Claimed()[0];
        assert Uses(s, p, us[0].op);
        ClaimedAreUnused(s, r, p, us[1].op);
      }
    }
  }

  lemma BuiltExtends(s: State, r: CoordinatedTx)
    requires Inv(s) && NewRecord(s, r) && BuiltInputs(s, r)
    ensures Extends(Claim(s, r.Claimed()), r, ChainOf(Claim(s, r.Claimed()), r.kind.speedup))
    ensures 1 <= |r.FundingInputs()|
  {
    var s' := Claim(s, r.Claimed());
    ClaimKeepsInv(s, r.Claimed());
    if r.IsRBF() {
      var p := r.kind.speedup.predecessor;
      ClaimKeepsMasked(s, r.Claimed(), p);
      hide Claim, Masked, Reservations, LifecycleOk, ParentsOk, OnePrebuilt, ChangeOk, QueueOk, OrderOk, RbfOk;
      assert SameShape(s.txs[p], s'.txs[p]);
      assert InputsOf(s, p);
    }
  }

  lemma ClaimReads(s: State, us: seq<Utxo>)
    requires Inv(s)
    ensures Evolves(s, Claim(s, us))
    ensures Claim(s, us).speedups == s.speedups && Claim(s, us).lineage == s.lineage
    ensures forall t :: t in Claim(s, us).txs ==> t in s.txs && Claim(s, us).txs[t].ChangeOp() == s.txs[t].ChangeOp()
    ensures forall x :: Waiting(Claim(s, us), x) ==> Waiting(s, x)
  {
    ClaimKeepsInv(s, us);
    EvolvesReadsSame(s, Claim(s, us));
    hide Inv, Claim;
    assert forall t :: t in s.txs ==> SameShape(s.txs[t], Claim(s, us).txs[t]);
  }

  lemma BuiltInputsReady(s: State, r: CoordinatedTx)
    requires Inv(s) && NewRecord(s, r) && BuiltInputs(s, r)
    ensures InputsReady(Claim(s, r.Claimed()), r)
  {
    hide Inv, Claim, Extends, ChainOf, NewRecord, FreshTxid, Masked, Claimable, Reserved, Live, Evolves;
    var s' := Claim(s, r.Claimed());
    ClaimReads(s, r.Claimed());
    BuiltExtends(s, r);
    forall op | op in Ops(r.FundingInputs())
      ensures Reserved(s', op) && op.txid != r.txid
      ensures op.txid in s'.speedups && op.txid in s'.txs ==> op == s'.txs[op.txid].ChangeOp()
    {
      BuiltInputReady(s, r, op);
    }
    if |r.FundingInputs()| == 2 {
      SecondInput(s, r);
    }
  }

  lemma BuiltClaimsUnused(s: State, r: CoordinatedTx, x: Txid, op: OutPoint)
    requires Inv(s) && BuiltInputs(s, r) && op in Ops(r.Claimed()) && Live(Claim(s, r.Claimed()), x)
    ensures !Uses(Claim(s, r.Claimed()), x, op)
  {
    ClaimKeepsInv(s, r.Claimed());
    EvolvesReadsSame(s, Claim(s, r.Claimed()));
    assert ReservedOk(s);
    hide Inv, Claim, ReservedOk, SameShape;
    assert Live(s, x);
    ClaimedAreUnused(s, r, x, op);
  }

  lemma BuiltInsertable(s: State, r: CoordinatedTx)
    requires Inv(s) && NewRecord(s, r) && BuiltInputs(s, r) && (forall x :: !Waiting(s, x))
    ensures Insertable(Claim(s, r.Claimed()), r, ChainOf(Claim(s, r.Claimed()), r.kind.speedup))
  {
    hide Inv, Claim, ChainOf, Extends, InputsReady, BuiltInputs, Evolves, FreshTxid, Live, Uses, Waiting;
    var s' := Claim(s, r.Claimed());
    ClaimReads(s, r.Claimed());
    BuiltExtends(s, r);
    BuiltInputsReady(s, r);
    FreshEvolves(s, s', r.txid);
    forall x, op | Live(s', x) && op in Ops(r.Claimed()) ensures !Uses(s', x, op) {
      BuiltClaimsUnused(s, r, x, op);
    }
  }

  lemma SaveBuiltKeepsInv(s: State, r: CoordinatedTx)
    requires Inv(s) && NewRecord(s, r) && BuiltInputs(s, r) && (forall x :: !Waiting(s, x))
    ensures Inv(SaveSpeedup(Claim(s, r.Claimed()), r))
  {
    hide Inv, NewRecord, BuiltInputs, Insertable, Waiting;
    BuiltInsertable(s, r);
    ClaimKeepsInv(s, r.Claimed());
    assert r.kind.Speedup? by { RecordIsSpeedup(s, r); }
    InsertKeepsInv(Claim(s, r.Claimed()), r, ChainOf(Claim(s, r.Claimed()), r.kind.speedup));
  }

  lemma RecordIsSpeedup(s: State, r: CoordinatedTx)
    requires NewRecord(s, r)
    ensures r.kind.Speedup?
  {}

  // ---------------------------------------------------------------- step 5

  lemma WaitingIsSeen(s: State, x: Txid)
    requires ListOk(s)
    ensures Waiting(s, x) ==> AnyWaiting(SpeedupRecords(s))
  {
    var all := SpeedupRecords(s);
    if Waiting(s, x) {
      assert x in s.speedups && s.txs[x] in all;
      var i :| 0 <= i < |all| && all[i] == s.txs[x];
    }
  }

  lemma NobodyWaits(s: State)
    requires ListOk(s) && !AnyWaiting(SpeedupRecords(s))
    ensures forall x :: !Waiting(s, x)
  {
    forall x ensures !Waiting(s, x) {
      WaitingIsSeen(s, x);
    }
  }

  /** The tip a boost acts on is stored, in the mempool and not being replaced. */
  lemma TipFacts(s: State, cfg: Config, height: BlockHeight)
    requires KeysOk(s) && ListOk(s) && StaleTip(cfg, SpeedupRecords(s), height).Some?
    ensures var tip := StaleTip(cfg, SpeedupRecords(s), height).value;
            && tip.txid in s.speedups && IsSpeedup(s, tip.txid) && s.txs[tip.txid] == tip
            && tip.state.InMempool? && !Masked(s, tip.txid)
            && tip.feeInfo.packageFeeRate < cfg.maxFeerate
    ensures forall x :: !Waiting(s, x)
  {
    var all := SpeedupRecords(s);
    var live := LiveInMempool(all, |all|);
    var tip := live[|live| - 1];
    assert tip in live;
    var i :| 0 <= i < |all| && all[i] == tip && tip.IsLiveInMempool(all);
    assert all[i] in all;
    var t :| t in s.speedups && t in s.txs && s.txs[t] == tip;
    NobodyWaits(s);
    MaskIsReplacement(s, t);
  }

  lemma BoostRecord(s: State, cfg: Config, b: Builder, q: BuildRequest, tip: CoordinatedTx, x: BuildResult, s': State,
                    height: BlockHeight)
    requires Inv(s) && FreshBuilder(s, b)
    requires tip.txid in s.txs && s.txs[tip.txid] == tip && tip.kind.Speedup? && tip.state.InMempool? && !Masked(s, tip.txid)
    requires if q.isRbf then BuildContract(s, cfg, b, q, tip.FundingInputs(), |tip.FundingInputs()|, s', Some(x))
             else ChosenFunding(s).Some? && BuildContract(s, cfg, b, q, [ChosenFunding(s).value.0], 0, s', Some(x))
    requires 1 <= |tip.FundingInputs()|
    ensures q.isRbf ==> |tip.FundingInputs()| <= |x.fundingInputs|
    ensures var r := NewSpeedup(x, q.parentVsizes, BoostKind(tip, q, x), height);
            NewRecord(s, r) && BuiltInputs(s, r) && s' == Claim(s, r.Claimed())
  {
    hide Inv, FreshTxid, Claimable, Claim, Masked, PaysForSize, FeeInfoForPaidSpeedup, Sum, ChosenFunding;
    var r := NewSpeedup(x, q.parentVsizes, BoostKind(tip, q, x), height);
    var call: nat :| b.build(call, x.fundingInputs, x.fee) == Built(x.txid, x.tx);
    assert FreshTxid(s, b.build(call, x.fundingInputs, x.fee).txid);
    if q.isRbf {
      assert r.Claimed() == x.fundingInputs[|tip.FundingInputs()|..];
      assert x.fundingInputs == tip.FundingInputs() + r.Claimed();
    } else {
      assert r.Claimed() == x.fundingInputs[0..];
    }
  }

  lemma RaisedRateOk(s: State, t: Txid, rate: nat)
    requires Inv(s) && t in s.txs && s.txs[t].state.InMempool?
    ensures WriteOk(s, t, s.txs[t].(feeInfo := s.txs[t].feeInfo.(packageFeeRate := rate)))
  {
    hide Structure, Reservations, ParentsOk, OnePrebuilt, Masked;
    assert LifeOf(s.txs[t]);
  }

  lemma NoteCapKeepsInv(s: State, cfg: Config, tip: CoordinatedTx, r: CoordinatedTx, q: BuildRequest, capped: bool)
    requires Inv(s) && tip.txid in s.txs && s.txs[tip.txid].state.InMempool?
    ensures Inv(NoteCap(s, cfg, tip, r, q, capped))
  {
    hide Inv, WriteOk, Evolves;
    if capped {
      var noted := AddNews(s, MaxFeeRateReached(r.txid, r.feeInfo.packageFeeRate));
      NewsKeepsInv(s, MaxFeeRateReached(r.txid, r.feeInfo.packageFeeRate));
      RaisedRateOk(noted, tip.txid, cfg.maxFeerate);
      var p := noted.txs[tip.txid];
      WriteKeepsInv(noted, tip.txid, p.(feeInfo := p.feeInfo.(packageFeeRate := cfg.maxFeerate)));
    }
  }

  lemma SavedTip(s: State, us: seq<Utxo>, r: CoordinatedTx, t: Txid)
    requires Inv(s) && r.kind.Speedup? && t in s.txs && s.txs[t].state.InMempool? && t != r.txid
    ensures t in SaveSpeedup(Claim(s, us), r).txs && SaveSpeedup(Claim(s, us), r).txs[t].state.InMempool?
  {
    ClaimKeepsInv(s, us);
    hide Inv, Claim, Evolves;
  }

  lemma BuildFailedKeepsInv(s: State, s': State)
    requires Inv(s) && s' == s.(news := s'.news)
    ensures Inv(s')
  {
    hide Inv;
    NewsSetKeepsInv(s, s'.news);
  }

  lemma InputsPresent(s: State, t: Txid)
    requires InputsOk(s) && IsSpeedup(s, t)
    ensures 1 <= |s.txs[t].FundingInputs()| <= 2
  {
    assert InputsOf(s, t);
  }

  lemma InvParts(s: State)
    requires Inv(s)
    ensures KeysOk(s) && ListOk(s) && LineageOk(s) && RbfOk(s) && QueueOk(s) && InputsOk(s)
    ensures LifecycleOk(s) && ParentsOk(s) && ReservedOk(s)
  {}

  lemma ListedIsSpeedup(s: State, t: Txid)
    requires ListOk(s) && t in s.speedups
    ensures IsSpeedup(s, t)
  {}

  /** The same speedups have been reported at the cap. */
  ghost predicate SameCapNews(s: State, s': State) {
    forall t, rate :: MaxFeeRateReached(t, rate) in s'.news <==> MaxFeeRateReached(t, rate) in s.news
  }

  lemma RateKeepsCapNews(s: State, cfg: Config, estimate: Option<nat>)
    ensures SameCapNews(s, NoteRate(s, NetworkFeeRate(cfg, estimate).1))
  {}

  lemma NotedReads(s: State, news: Option<News>)
    ensures SameCore(s, NoteRate(s, news)) && SpeedupRecords(NoteRate(s, news)) == SpeedupRecords(s)
    ensures NoteRate(s, news) == s.(news := NoteRate(s, news).news)
    ensures forall x :: Waiting(NoteRate(s, news), x) == Waiting(s, x)
    ensures forall x :: Masked(NoteRate(s, news), x) == Masked(s, x)
  {
    SameCoreFrame(s, NoteRate(s, news));
  }

  lemma FreshBuilderNoted(s: State, b: Builder, s': State)
    requires FreshBuilder(s, b) && SameCore(s, s')
    ensures FreshBuilder(s', b)
  {
    SameCoreFrame(s, s');
    hide SameCore, Evolves;
    forall call, us, fee ensures FreshTxid(s', b.build(call, us, fee).txid) {
      FreshEvolves(s, s', b.build(call, us, fee).txid);
    }
  }

  lemma ContractPays(s: State, cfg: Config, b: Builder, q: BuildRequest, inputs: seq<Utxo>, inherited: nat, s': State,
                     x: BuildResult)
    requires inherited <= |inputs| && 1 <= |inputs| && BuildContract(s, cfg, b, q, inputs, inherited, s', Some(x))
    ensures PaysForSize(cfg, q, x)
  {}

  /** Everything a boost of a stale tip does, in one place. */
  lemma BoostFacts(s: State, cfg: Config, b: Builder, estimate: Option<nat>, height: BlockHeight)
    returns (noted: State, tip: CoordinatedTx, q: BuildRequest, s': State, built: Option<BuildResult>)
    requires Inv(s) && FreshBuilder(s, b) && 0 < cfg.dustLimit && StaleTip(cfg, SpeedupRecords(s), height).Some?
    ensures tip == StaleTip(cfg, SpeedupRecords(s), height).value
    ensures tip.txid in s.speedups && IsSpeedup(s, tip.txid) && s.txs[tip.txid] == tip && tip.state.InMempool?
    ensures !Masked(s, tip.txid) && tip.feeInfo.packageFeeRate < cfg.maxFeerate && forall x :: !Waiting(s, x)
    ensures q == BoostRequest(cfg, SpeedupRecords(s), tip, NetworkFeeRate(cfg, estimate).0)
    ensures Inv(noted) && SameCore(s, noted) && noted.txs == s.txs && noted == s.(news := noted.news)
    ensures SameCapNews(s, noted)
    ensures forall x :: !Waiting(noted, x)
    ensures (s', built) == BoostBuild(s, cfg, b, estimate, tip)
    ensures built.None? ==> s' == noted.(news := s'.news) && BoostIfStale(s, cfg, b, estimate, false, height) == s'
    ensures built.Some? ==>
      && (q.isRbf ==> |tip.FundingInputs()| <= |built.value.fundingInputs|)
      && PaysForSize(cfg, q, built.value)
      && var r := NewSpeedup(built.value, q.parentVsizes, BoostKind(tip, q, built.value), height);
      && NewRecord(noted, r) && BuiltInputs(noted, r) && s' == Claim(noted, r.Claimed()) && r.kind.Speedup?
      && BoostIfStale(s, cfg, b, estimate, false, height) == NoteCap(SaveSpeedup(s', r), cfg, tip, r, q, built.value.capped)
  {
    hide Inv, KeysOk, ListOk, LineageOk, QueueOk, InputsOk, LifecycleOk, ParentsOk, ReservedOk, FreshBuilder;
    hide StaleTip, Masked, SpeedupRecords, SameCore, BuildSpeedup, NetworkFeeRate, BuildContract, Claim, Waiting, SameCapNews;
    hide NewRecord, BuiltInputs, SaveSpeedup, NewSpeedup, BoostKind, NoteCap, BoostRequest, PaysForSize;
    InvParts(s);
    tip := StaleTip(cfg, SpeedupRecords(s), height).value;
    TipFacts(s, cfg, height);
    InputsPresent(s, tip.txid);
    var (rate, news) := NetworkFeeRate(cfg, estimate);
    q := BoostRequest(cfg, SpeedupRecords(s), tip, rate);
    noted := NoteRate(s, news);
    NoteRateKeepsInv(s, news);
    NotedReads(s, news);
    RateKeepsCapNews(s, cfg, estimate);
    FreshBuilderNoted(s, b, noted);
    hide NoteRate;
    InvParts(noted);
    var given := if q.isRbf then Some(tip.FundingInputs()) else None;
    BuildSpeedupContract(noted, cfg, b, q, given);
    FailedBuild(noted, cfg, b, q, given);
    BuildKeepsInputs(noted, cfg, b, q, given);
    var out := BuildSpeedup(noted, cfg, b, q, given);
    s' := out.0;
    built := out.1;
    if built.Some? {
      if q.isRbf {
        ContractPays(noted, cfg, b, q, tip.FundingInputs(), |tip.FundingInputs()|, s', built.value);
      } else {
        ContractPays(noted, cfg, b, q, [ChosenFunding(noted).value.0], 0, s', built.value);
      }
      BoostRecord(noted, cfg, b, q, tip, built.value, s', height);
      RecordIsSpeedup(noted, NewSpeedup(built.value, q.parentVsizes, BoostKind(tip, q, built.value), height));
    }
  }

  /** Step 5, under H1. */
  lemma BoostKeepsInv(s: State, cfg: Config, b: Builder, estimate: Option<nat>, skipBoost: bool, height: BlockHeight)
    requires Inv(s) && FreshBuilder(s, b) && 0 < cfg.dustLimit
    ensures Inv(BoostIfStale(s, cfg, b, estimate, skipBoost, height))
  {
    hide Inv, FreshBuilder, StaleTip, Masked, SpeedupRecords, SameCore, NetworkFeeRate, Claim, Waiting, BoostBuild;
    hide NewRecord, BuiltInputs, SaveSpeedup, NewSpeedup, BoostKind, NoteCap, BoostRequest, PaysForSize;
    if !skipBoost && StaleTip(cfg, SpeedupRecords(s), height).Some? {
      var noted, tip, q, s', built := BoostFacts(s, cfg, b, estimate, height);
      if built.None? {
        BuildFailedKeepsInv(noted, s');
      } else {
        var r := NewSpeedup(built.value, q.parentVsizes, BoostKind(tip, q, built.value), height);
        SaveBuiltKeepsInv(noted, r);
        RecordIsNew(noted, r, tip.txid);
        SavedTip(noted, r.Claimed(), r, tip.txid);
        NoteCapKeepsInv(SaveSpeedup(s', r), cfg, tip, r, q, built.value.capped);
      }
    }
  }

  lemma RecordIsNew(s: State, r: CoordinatedTx, t: Txid)
    requires NewRecord(s, r) && t in s.txs
    ensures r.kind.Speedup? && t != r.txid
  {}

  lemma FailedBuild(s: State, cfg: Config, b: Builder, q: BuildRequest, rbfInputs: Option<seq<Utxo>>)
    requires KeysOk(s) && ListOk(s) && QueueOk(s) && LineageOk(s) && 0 < cfg.dustLimit
    requires rbfInputs.Some? ==> 1 <= |rbfInputs.value| <= 2
    ensures var (s', r) := BuildSpeedup(s, cfg, b, q, rbfInputs);
            r.None? ==> s' == s.(news := s'.news)
  {
    BuildSpeedupContract(s, cfg, b, q, rbfInputs);
    hide KeysOk, ListOk, QueueOk, LineageOk, BuildSpeedup, ChosenFunding;
  }

  // ---------------------------------------------------------------- step 6

  lemma {:induction false} PendingDistinct(s: State, ids: seq<Txid>)
    requires KeysOk(s) && NoDup(ids)
    ensures forall i :: 0 <= i < |PendingParents(s, ids)| ==> PendingParents(s, ids)[i].txid in ids
    ensures DistinctTxs(PendingParents(s, ids))
  {
    if ids != [] {
      PendingDistinct(s, ids[1..]);
      assert ids[0] !in ids[1..];
    }
  }

  lemma TxidsDistinct(rs: seq<CoordinatedTx>)
    requires DistinctTxs(rs)
    ensures NoDup(Txids(rs))
  {
    hide Txids;
  }

  lemma PendingParentsDistinct(s: State, ids: seq<Txid>)
    requires KeysOk(s) && NoDup(ids)
    ensures NoDup(Txids(PendingParents(s, ids)))
  {
    hide PendingParents, Txids, KeysOk, NoDup;
    PendingDistinct(s, ids);
    TxidsDistinct(PendingParents(s, ids));
  }

  lemma BatchTxidsDistinct(rs: seq<CoordinatedTx>, n: nat)
    requires n <= |rs| && NoDup(Txids(rs))
    ensures NoDup(Txids(rs[..n]))
  {
    hide Txids;
    var front, whole := Txids(rs[..n]), Txids(rs);
    assert forall i :: 0 <= i < n ==> front[i] == whole[i];
  }

  lemma CpfpRecord(s: State, cfg: Config, b: Builder, q: BuildRequest, covered: seq<Txid>, x: BuildResult, s': State,
                   height: BlockHeight)
    requires Inv(s) && FreshBuilder(s, b) && NoDup(covered)
    requires ChosenFunding(s).Some? && BuildContract(s, cfg, b, q, [ChosenFunding(s).value.0], 0, s', Some(x))
    ensures var context := MakeContext(x.fundingInputs, q.bump, q.parentVsizes);
            var r := NewSpeedup(x, q.parentVsizes, CPFP(covered, context), height);
            NewRecord(s, r) && BuiltInputs(s, r) && s' == Claim(s, r.Claimed())
  {
    hide Inv, FreshTxid, Claimable, Claim, PaysForSize, FeeInfoForPaidSpeedup, Sum, ChosenFunding;
    var call: nat :| b.build(call, x.fundingInputs, x.fee) == Built(x.txid, x.tx);
    assert FreshTxid(s, b.build(call, x.fundingInputs, x.fee).txid);
    assert x.fundingInputs[0..] == x.fundingInputs;
  }

  /** Taking the batch off the queue and saving the CPFP commute. */
  lemma SaveAfterTaking(s: State, r: CoordinatedTx, gone: set<Txid>, capped: bool, n: News)
    requires r.kind.Speedup? && Inv(SaveSpeedup(s, r))
    ensures var taken := RemovePending(s, gone);
            Inv(SaveSpeedup(if capped then AddNews(taken, n) else taken, r))
  {
    var saved := SaveSpeedup(s, r);
    RemovePendingKeepsInv(saved, gone);
    NewsKeepsInv(RemovePending(saved, gone), n);
    hide Inv;
    assert SaveSpeedup(RemovePending(s, gone), r) == RemovePending(saved, gone);
    assert SaveSpeedup(AddNews(RemovePending(s, gone), n), r) == AddNews(RemovePending(saved, gone), n);
  }

  lemma PruneReads(s: State)
    ensures SameCore(s, PrunePending(s))
    ensures forall x :: Waiting(PrunePending(s), x) == Waiting(s, x)
  {}

  lemma SameCoreTransitive(a: State, b: State, c: State)
    requires SameCore(a, b) && SameCore(b, c)
    ensures SameCore(a, c)
  {}

  lemma BuildCpfpKeepsInv(s: State, cfg: Config, b: Builder, q: BuildRequest, covered: seq<Txid>, height: BlockHeight)
    requires Inv(s) && FreshBuilder(s, b) && 0 < cfg.dustLimit && NoDup(covered) && (forall x :: !Waiting(s, x))
    ensures Inv(BuildCpfp(s, cfg, b, q, covered, height))
  {
    hide Inv, KeysOk, ListOk, LineageOk, QueueOk, InputsOk, LifecycleOk, ParentsOk, ReservedOk, FreshBuilder, NoDup, Waiting;
    hide BuildSpeedup, BuildContract, Claim, NewRecord, BuiltInputs, SaveSpeedup, ChosenFunding;
    InvParts(s);
    BuildSpeedupContract(s, cfg, b, q, None);
    FailedBuild(s, cfg, b, q, None);
    var (s', built) := BuildSpeedup(s, cfg, b, q, None);
    if built.None? {
      BuildFailedKeepsInv(s, s');
    } else {
      CpfpRecord(s, cfg, b, q, covered, built.value, s', height);
      var r := NewSpeedup(built.value, q.parentVsizes,
                          CPFP(covered, MakeContext(built.value.fundingInputs, q.bump, q.parentVsizes)), height);
      SaveBuiltKeepsInv(s, r);
      SaveAfterTaking(s', r, Elements(covered), built.value.capped, MaxFeeRateReached(r.txid, r.feeInfo.packageFeeRate));
    }
  }

  /** Step 6, under H1. */
  lemma CreateKeepsInv(s: State, cfg: Config, b: Builder, estimate: Option<nat>, height: BlockHeight)
    requires Inv(s) && FreshBuilder(s, b) && 0 < cfg.dustLimit
    ensures Inv(CreateCpfpBatch(s, cfg, b, estimate, height))
  {
    hide Inv, KeysOk, ListOk, LineageOk, QueueOk, InputsOk, LifecycleOk, ReservedOk, FreshBuilder, Waiting, AnyWaiting;
    hide PendingParents, SpeedupRecords, SameCore, LiveInMempool, Evolves;
    InvParts(s);
    var pruned := PrunePending(s);
    RemovePendingKeepsInv(s, set t | t in s.psp && Prunable(s, t));
    PruneReads(s);
    hide PrunePending;
    var parents := PendingParents(s, s.psp);
    PendingParentsDistinct(s, s.psp);
    hide ParentsOk, NoDup;
    var all := SpeedupRecords(s);
    if parents != [] && SlotFree(cfg, all) {
      NobodyWaits(s);
      hide NetworkFeeRate, FirstBatch, ParentVsizes, BuildCpfp, CpfpRequest, Txids;
      var (rate, news) := NetworkFeeRate(cfg, estimate);
      var batch := parents[..FirstBatch(cfg, parents, 0, 0)];
      var vsizes := ParentVsizes(batch);
      var noted := NoteRate(pruned, news);
      NoteRateKeepsInv(pruned, news);
      NotedReads(pruned, news);
      hide NoteRate, SlotFree;
      SameCoreTransitive(s, pruned, noted);
      FreshBuilderNoted(s, b, noted);
      BatchTxidsDistinct(parents, FirstBatch(cfg, parents, 0, 0));
      if vsizes != [] {
        BuildCpfpKeepsInv(noted, cfg, b, CpfpRequest(cfg, all, vsizes, rate), Txids(batch), height);
      }
    }
  }

  // ---------------------------------------------------------------- client operations

  lemma RegisterOpKeepsInv(s: State, cfg: Config, g: Registration, estimate: Option<nat>, height: BlockHeight)
    requires Inv(s) && ClientTxid(s, g.txid)
    ensures Inv(Register(s, cfg, g, estimate, height))
  {
    if g.txid !in s.txs {
      var (rate, _) := NetworkFeeRate(cfg, estimate);
      var r := CoordinatedTx(g.txid, g.tx, if g.needsSpeedup then NeedsSpeedup else Normal, ToDispatch,
                             if g.target.Some? then g.target.value else height, g.stuckInMempoolBlocks, None, None, None, 0,
                             ComputeFeeForTx(g.tx, rate));
      RegisterKeepsInv(s, g.txid, r);
      var inserted := Put(s, g.txid, r);
      if g.needsSpeedup {
        hide Structure, Reservations, LifecycleOk, OnePrebuilt, Evolves;
        NoDupConcat(inserted.psp, if g.txid in inserted.psp then [] else [g.txid]);
        SameCoreKeepsInv(inserted, AddPendingParent(inserted, g.txid));
      }
    }
  }

  lemma AddFundingKeepsInv(s: State, cfg: Config, utxo: Utxo)
    requires Inv(s) && FreshOutpoint(s, utxo.op)
    ensures Inv(AddFunding(s, cfg, utxo))
  {
    hide Inv, FreshOutpoint;
    if utxo.amount < cfg.minFundingAmount {
      NewsKeepsInv(s, InvalidFundingUtxo(utxo.amount, cfg.minFundingAmount));
    } else {
      AppendKeepsInv(s, utxo);
    }
  }

  lemma CancelKeepsInv(s: State, txids: seq<Txid>)
    requires Inv(s)
    ensures Inv(Cancel(s, txids))
  {
    hide Inv, Evolves;
    var eligible := Eligible(s, txids);
    var refused := RefusalNews(s, txids);
    var noted := s.(news := s.news + refused);
    NewsSetKeepsInv(s, s.news + refused);
    var taken := RemovePending(noted, eligible);
    RemovePendingKeepsInv(noted, eligible);
    RemoveKeepsInv(taken, eligible);
  }
}

/** Building never overfills the slots, and the bound holds over every run without a lost confirmation. */
module SlotBounds {
  import opened Types
  import opened Oracles
  import Fees
  import opened States
  import opened Funding
  import opened Failures
  import opened Dispatching
  import opened Engines
  import opened FeeLaws
  import opened Invariants
  import opened Evolution
  import opened FailureLaws
  import opened GrowthLaws
  import opened BuildLaws
  import opened ReviewLaws
  import opened DispatchLaws
  import opened OutcomeLaws
  import opened CreationLaws
  import opened Runs
  import opened LifecycleLaws
  import opened Ticks
  import opened SlotLaws
  import opened SlotReviews

  // ---------------------------------------------------------------- counting

  lemma {:induction false} NoDupSize<T(!new)>(xs: seq<T>)
    requires NoDup(xs)
    ensures |Elements(xs)| == |xs|
  {
    if xs != [] {
      NoDupSize(xs[1..]);
      assert Elements(xs) == Elements(xs[1..]) + {xs[0]};
    }
  }

  lemma {:induction false} LiveDistinct(all: seq<CoordinatedTx>, n: nat)
    requires n <= |all| && DistinctTxs(all)
    ensures DistinctTxs(LiveInMempool(all, n))
  {
    if n > 0 {
      LiveDistinct(all, n - 1);
      var front := LiveInMempool(all, n - 1);
      forall i | 0 <= i < |front| ensures front[i].txid != all[n - 1].txid {
        assert front[i] in front;
      }
    }
  }

  lemma LiveHolds(s: State, t: Txid)
    requires KeysOk(s) && ListOk(s) && (forall x :: !Waiting(s, x))
    ensures t in Occupied(s) <==>
              t in s.txs && s.txs[t] in LiveInMempool(SpeedupRecords(s), |SpeedupRecords(s)|)
  {
    var all := SpeedupRecords(s);
    if t in s.txs {
      MaskIsReplacement(s, t);
      if t in s.speedups {
        assert s.txs[t] in all;
        var i :| 0 <= i < |all| && all[i] == s.txs[t];
        assert !Waiting(s, t);
      }
      if s.txs[t] in LiveInMempool(all, |all|) {
        assert s.txs[t] in all;
        var y :| y in s.speedups && y in s.txs && s.txs[y] == s.txs[t];
      }
      hide Masked;
    }
  }

  lemma LiveTxids(s: State)
    requires KeysOk(s) && ListOk(s)
    ensures NoDup(Txids(LiveInMempool(SpeedupRecords(s), |SpeedupRecords(s)|)))
  {
    hide Txids, LiveInMempool;
    RecordsDistinct(s.txs, s.speedups);
    LiveDistinct(SpeedupRecords(s), |SpeedupRecords(s)|);
    TxidsDistinct(LiveInMempool(SpeedupRecords(s), |SpeedupRecords(s)|));
  }

  /** When nothing waits, the slots taken are exactly the live in-mempool speedups the engine counts. */
  lemma LiveCount(s: State)
    requires KeysOk(s) && ListOk(s) && (forall x :: !Waiting(s, x))
    ensures |Occupied(s)| == |LiveInMempool(SpeedupRecords(s), |SpeedupRecords(s)|)|
  {
    hide Txids, LiveInMempool, Occupied, SpeedupRecords, Waiting, KeysOk, ListOk, NoDup;
    var live := LiveInMempool(SpeedupRecords(s), |SpeedupRecords(s)|);
    var ts := Txids(live);
    LiveTxids(s);
    NoDupSize(ts);
    forall t ensures t in Occupied(s) <==> t in ts {
      LiveListed(s, live, t);
    }
    assert Occupied(s) == Elements(ts);
  }

  lemma LiveListed(s: State, live: seq<CoordinatedTx>, t: Txid)
    requires KeysOk(s) && ListOk(s) && (forall x :: !Waiting(s, x))
    requires live == LiveInMempool(SpeedupRecords(s), |SpeedupRecords(s)|)
    ensures t in Occupied(s) <==> t in Txids(live)
  {
    LiveHolds(s, t);
    hide Txids, LiveInMempool, Occupied, Records, Waiting;
    var ts := Txids(live);
    if t in ts {
      var i :| 0 <= i < |ts| && ts[i] == t;
      LiveStored(s, live[i]);
    }
    if t in Occupied(s) {
      var i :| 0 <= i < |live| && live[i] == s.txs[t];
      assert ts[i] == t;
    }
  }

  lemma LiveStored(s: State, r: CoordinatedTx)
    requires KeysOk(s) && r in LiveInMempool(SpeedupRecords(s), |SpeedupRecords(s)|)
    ensures r.txid in s.txs && s.txs[r.txid] == r
  {
    assert r in SpeedupRecords(s);
  }

  // ---------------------------------------------------------------- building

  lemma ClaimSlots(s: State, us: seq<Utxo>)
    requires Inv(s)
    ensures Occupied(Claim(s, us)) == Occupied(s)
  {
    var s' := Claim(s, us);
    ClaimKeepsInv(s, us);
    hide Inv, Claim, Occupied;
    InvParts(s);
    forall x | x in s.speedups
      ensures x in s'.txs && s'.txs[x].IsBeingReplaced() == s.txs[x].IsBeingReplaced()
      ensures forall p :: s'.txs[x].Supersedes(p) == s.txs[x].Supersedes(p)
      ensures s'.txs[x].kind.Speedup? == s.txs[x].kind.Speedup?
    {
      ClaimKeepsMarks(s, us, x);
      assert SameShape(s.txs[x], s'.txs[x]);
    }
    SameSpeedupsSameSlots(s, s');
  }

  /** The new speedup takes one slot; an RBF frees its predecessor's. */
  lemma SaveSlots(s: State, r: CoordinatedTx)
    requires r.kind.Speedup? && r.txid !in s.txs && !r.state.Failed?
    ensures Occupied(SaveSpeedup(s, r)) <= Occupied(s) + {r.txid}
    ensures forall p :: r.Supersedes(p) && p != r.txid ==> p !in Occupied(SaveSpeedup(s, r))
  {
    var s' := SaveSpeedup(s, r);
    assert r.txid in s'.speedups && Live(s', r.txid);
    forall x | x in Occupied(s') && x != r.txid ensures x in Occupied(s) {
      if z :| z in s.speedups && Live(s, z) && Supersedes(s, z, x) {
        assert z in s'.speedups && Live(s', z) && Supersedes(s', z, x);
      }
    }
    forall p | r.Supersedes(p) && p != r.txid ensures p !in Occupied(s') {
      assert Supersedes(s', r.txid, p);
    }
  }

  lemma NewSize(a: set<Txid>, b: set<Txid>, t: Txid)
    requires b <= a + {t}
    ensures |b| <= |a| + 1
  {
    SubsetSize(b, a + {t});
  }

  lemma SwapInSize(a: set<Txid>, b: set<Txid>, t: Txid, p: Txid)
    requires b <= a + {t} && p in a && p !in b
    ensures |b| <= |a|
  {
    assert b <= (a - {p}) + {t};
    SubsetSize(b, (a - {p}) + {t});
    assert |a - {p}| == |a| - 1;
  }

  lemma SaveBuiltSlots(s: State, r: CoordinatedTx)
    requires Inv(s) && NewRecord(s, r) && r.kind.Speedup?
    ensures |Occupied(SaveSpeedup(Claim(s, r.Claimed()), r))| <= |Occupied(s)| + 1
    ensures (exists p :: r.Supersedes(p) && p in Occupied(s)) ==>
              |Occupied(SaveSpeedup(Claim(s, r.Claimed()), r))| <= |Occupied(s)|
  {
    hide Inv, Claim, Occupied;
    var claimed := Claim(s, r.Claimed());
    ClaimSlots(s, r.Claimed());
    NewIsFresh(s, r);
    ClaimReads(s, r.Claimed());
    SaveSlots(claimed, r);
    NewSize(Occupied(claimed), Occupied(SaveSpeedup(claimed, r)), r.txid);
    if p :| r.Supersedes(p) && p in Occupied(s) {
      assert p != r.txid by { OccupiedStored(s, p); }
      SwapInSize(Occupied(claimed), Occupied(SaveSpeedup(claimed, r)), r.txid, p);
    }
  }

  lemma OccupiedStored(s: State, p: Txid)
    requires p in Occupied(s)
    ensures p in s.txs
  {}

  lemma NoteCapSlots(s: State, cfg: Config, tip: CoordinatedTx, r: CoordinatedTx, q: BuildRequest, capped: bool)
    requires ListOk(s)
    ensures Occupied(NoteCap(s, cfg, tip, r, q, capped)) == Occupied(s)
  {
    var s' := NoteCap(s, cfg, tip, r, q, capped);
    assert SpeedupsSame(s, s');
    hide Occupied, NoteCap;
    SameSpeedupsSameSlots(s, s');
  }

  lemma TipHolds(s: State, cfg: Config, height: BlockHeight)
    requires KeysOk(s) && ListOk(s) && StaleTip(cfg, SpeedupRecords(s), height).Some?
    ensures StaleTip(cfg, SpeedupRecords(s), height).value.txid in Occupied(s)
  {
    hide StaleTip, Masked;
    TipFacts(s, cfg, height);
  }

  lemma BoostKindSupersedes(tip: CoordinatedTx, q: BuildRequest, x: BuildResult, height: BlockHeight)
    requires tip.kind.Speedup? && q.isRbf && |tip.FundingInputs()| <= |x.fundingInputs|
    ensures NewSpeedup(x, q.parentVsizes, BoostKind(tip, q, x), height).Supersedes(tip.txid)
  {}

  lemma BoostRequestRbf(cfg: Config, all: seq<CoordinatedTx>, tip: CoordinatedTx, rate: nat)
    requires tip.kind.Speedup?
    ensures BoostRequest(cfg, all, tip, rate).isRbf == UseRbf(cfg, all)
  {}

  /** A boost takes a slot only when one is free; otherwise it replaces the tip that holds one. */
  lemma BoostSlots(s: State, cfg: Config, b: Builder, estimate: Option<nat>, skipBoost: bool, height: BlockHeight)
    requires Inv(s) && FreshBuilder(s, b) && 0 < cfg.dustLimit
    ensures |Occupied(BoostIfStale(s, cfg, b, estimate, skipBoost, height))| <= Fees.Max(cfg.maxUnconfirmedSpeedups, |Occupied(s)|)
  {
    hide Inv, KeysOk, ListOk, LineageOk, RbfOk, QueueOk, InputsOk, LifecycleOk, ParentsOk, ReservedOk, FreshBuilder, Occupied;
    hide StaleTip, Masked, SpeedupRecords, SameCore, BoostBuild, Fees.NetworkFeeRate, Claim, Waiting, PaysForSize;
    hide NewRecord, BuiltInputs, SaveSpeedup, NewSpeedup, BoostKind, NoteCap, LiveInMempool, BoostRequest;
    InvParts(s);
    if !skipBoost && StaleTip(cfg, SpeedupRecords(s), height).Some? {
      TipHolds(s, cfg, height);
      var noted, tip, q, s', built := BoostFacts(s, cfg, b, estimate, height);
      LiveCount(s);
      BoostRequestRbf(cfg, SpeedupRecords(s), tip, Fees.NetworkFeeRate(cfg, estimate).0);
      CoreSlots(s, noted);
      if built.None? {
        FailedCore(noted, s');
        CoreSlots(noted, s');
      } else {
        var r := NewSpeedup(built.value, q.parentVsizes, BoostKind(tip, q, built.value), height);
        if q.isRbf {
          BoostKindSupersedes(tip, q, built.value, height);
        }
        SaveBuiltSlots(noted, r);
        SaveBuiltLists(noted, r);
        NoteCapSlots(SaveSpeedup(s', r), cfg, tip, r, q, built.value.capped);
      }
    }
  }

  lemma FailedCore(s: State, s': State)
    requires s' == s.(news := s'.news)
    ensures SameCore(s, s')
  {}

  lemma SaveLists(s: State, r: CoordinatedTx)
    requires ListOk(s) && r.txid !in s.txs && r.kind.Speedup?
    ensures ListOk(SaveSpeedup(s, r))
  {
    assert r.txid !in s.speedups;
    NoDupConcat(s.speedups, [r.txid]);
  }

  lemma SaveBuiltLists(s: State, r: CoordinatedTx)
    requires Inv(s) && NewRecord(s, r) && r.kind.Speedup?
    ensures ListOk(SaveSpeedup(Claim(s, r.Claimed()), r))
  {
    hide Inv, Claim, KeysOk, ListOk, LineageOk, RbfOk, QueueOk, InputsOk, LifecycleOk, ParentsOk, ReservedOk, SaveSpeedup;
    var claimed := Claim(s, r.Claimed());
    ClaimKeepsInv(s, r.Claimed());
    InvParts(claimed);
    ClaimReads(s, r.Claimed());
    NewIsFresh(s, r);
    SaveLists(claimed, r);
  }

  lemma BuildCpfpSlots(s: State, cfg: Config, b: Builder, q: BuildRequest, covered: seq<Txid>, height: BlockHeight)
    requires Inv(s) && FreshBuilder(s, b) && 0 < cfg.dustLimit && NoDup(covered)
    ensures |Occupied(BuildCpfp(s, cfg, b, q, covered, height))| <= |Occupied(s)| + 1
  {
    hide Inv, KeysOk, ListOk, LineageOk, QueueOk, InputsOk, LifecycleOk, ParentsOk, ReservedOk, FreshBuilder, NoDup;
    hide BuildSpeedup, BuildContract, Claim, NewRecord, BuiltInputs, ChosenFunding, Occupied, SaveSpeedup, NewSpeedup;
    InvParts(s);
    BuildSpeedupContract(s, cfg, b, q, None);
    FailedBuild(s, cfg, b, q, None);
    var (s', built) := BuildSpeedup(s, cfg, b, q, None);
    if built.None? {
      FailedCore(s, s');
      CoreSlots(s, s');
    } else {
      CpfpRecord(s, cfg, b, q, covered, built.value, s', height);
      var r := NewSpeedup(built.value, q.parentVsizes,
                          CPFP(covered, MakeContext(built.value.fundingInputs, q.bump, q.parentVsizes)), height);
      NewIsFresh(s, r);
      SaveBuiltSlots(s, r);
      SaveIsCore(s', RemovePending(s', Elements(covered)), r);
      SaveIsCore(s', AddNews(RemovePending(s', Elements(covered)), MaxFeeRateReached(r.txid, r.feeInfo.packageFeeRate)), r);
      CoreSlots(SaveSpeedup(s', r), BuildCpfp(s, cfg, b, q, covered, height));
    }
  }

  lemma SaveIsCore(s: State, s': State, r: CoordinatedTx)
    requires r.kind.Speedup? && SameCore(s, s')
    ensures SameCore(SaveSpeedup(s, r), SaveSpeedup(s', r))
  {}

  /** The first CPFP is built only when a slot is free. */
  lemma CpfpSlots(s: State, cfg: Config, b: Builder, estimate: Option<nat>, height: BlockHeight)
    requires Inv(s) && FreshBuilder(s, b) && 0 < cfg.dustLimit
    ensures |Occupied(CreateCpfpBatch(s, cfg, b, estimate, height))| <= Fees.Max(cfg.maxUnconfirmedSpeedups, |Occupied(s)|)
  {
    hide Inv, KeysOk, ListOk, LineageOk, QueueOk, InputsOk, LifecycleOk, ReservedOk, FreshBuilder, AnyWaiting, Waiting;
    hide PendingParents, SpeedupRecords, SameCore, LiveInMempool, Evolves, Occupied;
    InvParts(s);
    var pruned := PrunePending(s);
    RemovePendingKeepsInv(s, set t | t in s.psp && Prunable(s, t));
    PruneReads(s);
    CoreSlots(s, pruned);
    hide PrunePending;
    var parents := PendingParents(s, s.psp);
    PendingParentsDistinct(s, s.psp);
    hide ParentsOk, NoDup;
    var all := SpeedupRecords(s);
    if parents != [] && SlotFree(cfg, all) {
      NobodyWaits(s);
      LiveCount(s);
      hide Fees.NetworkFeeRate, FirstBatch, ParentVsizes, BuildCpfp, CpfpRequest, Txids;
      var (rate, news) := Fees.NetworkFeeRate(cfg, estimate);
      var batch := parents[..FirstBatch(cfg, parents, 0, 0)];
      var vsizes := ParentVsizes(batch);
      var noted := NoteRate(pruned, news);
      NoteRateKeepsInv(pruned, news);
      NotedReads(pruned, news);
      NotedSlots(pruned, news);
      hide NoteRate;
      SameCoreTransitive(s, pruned, noted);
      FreshBuilderNoted(s, b, noted);
      BatchTxidsDistinct(parents, FirstBatch(cfg, parents, 0, 0));
      if vsizes != [] {
        BuildCpfpSlots(noted, cfg, b, CpfpRequest(cfg, all, vsizes, rate), Txids(batch), height);
      }
    }
  }

  // ---------------------------------------------------------------- every run

  lemma RegisterSpeedups(s: State, cfg: Config, g: Registration, estimate: Option<nat>, height: BlockHeight)
    requires ListOk(s)
    ensures SpeedupsSame(s, Register(s, cfg, g, estimate, height))
  {}

  lemma AddFundingSpeedups(s: State, cfg: Config, utxo: Utxo)
    requires ListOk(s)
    ensures SpeedupsSame(s, AddFunding(s, cfg, utxo))
  {}

  lemma ClientOpSlots(s: State, cfg: Config, e: Event)
    requires Inv(s) && (e.RegisterEvent? || e.AddFundingEvent? || e.CancelEvent?)
    ensures |Occupied(Step(s, cfg, e))| <= |Occupied(s)|
  {
    hide Inv, Occupied, Register, AddFunding, Cancel, SpeedupsSame, ListOk;
    InvParts(s);
    match e
    case RegisterEvent(g, estimate, height) =>
      RegisterSpeedups(s, cfg, g, estimate, height);
      SameSpeedupsSameSlots(s, Step(s, cfg, e));
    case AddFundingEvent(utxo) =>
      AddFundingSpeedups(s, cfg, utxo);
      SameSpeedupsSameSlots(s, Step(s, cfg, e));
    case CancelEvent(txids) => CancelSlots(s, txids);
  }

  lemma CancelSlots(s: State, txids: seq<Txid>)
    requires Inv(s)
    ensures |Occupied(Cancel(s, txids))| <= |Occupied(s)|
  {
    hide Inv, MarkOk, MaskOk, WaitingOk, Occupied;
    InvMarks(s);
    var eligible := Eligible(s, txids);
    var taken := RemovePending(s.(news := s.news + RefusalNews(s, txids)), eligible);
    CoreSlots(s, taken);
    CoreMarks(s, taken);
    hide RemoveTxs;
    RemoveSlots(taken, eligible);
    SubsetSize(Occupied(RemoveTxs(taken, eligible)), Occupied(taken));
  }

  lemma CoreMarks(s: State, s': State)
    requires SameCore(s, s') && MarkOk(s)
    ensures MarkOk(s')
  {
    SameCoreFrame(s, s');
    EvolvesReadsSame(s, s');
    hide Evolves, Masked;
  }

  /** The confirmations of unreplaced speedups an event takes back. */
  ghost function TakenBackBy(s: State, e: Event): set<Txid> {
    if e.ReviewSpeedupsEvent? then TakenBack(s, e.status) else {}
  }

  ghost function ConfirmationsLost(s: State, cfg: Config, es: seq<Event>): nat
    decreases |es|
  {
    if es == [] then 0 else |TakenBackBy(s, es[0])| + ConfirmationsLost(Step(s, cfg, es[0]), cfg, es[1..])
  }

  lemma StepSlots(s: State, cfg: Config, e: Event)
    requires Inv(s) && cfg.Valid() && Admissible(s, cfg, e)
    ensures |Occupied(Step(s, cfg, e))| <= Fees.Max(cfg.maxUnconfirmedSpeedups, |Occupied(s)|) + |TakenBackBy(s, e)|
  {
    hide Inv, ReviewActive, ReviewSpeedups, DispatchPending, DispatchPendingSpeedups, BoostIfStale, CreateCpfpBatch;
    hide Register, AddFunding, Cancel, ConsistentNode, FreshBuilder, FreshOutpoint, Occupied, TakenBack, Staying;
    match e
    case ReviewClientsEvent(status, order, height) => ReviewClientsSlots(s, cfg, status, order, height);
    case ReviewSpeedupsEvent(status, height) => ReviewSlotsExactly(s, cfg, status, height);
    case DispatchClientsEvent(node, order, ready, estimate, height) =>
      DispatchClientsSlots(s, cfg, node, order, ready, estimate, height);
    case DispatchSpeedupsEvent(node, ready, height) => DispatchSpeedupsSlots(s, cfg, node, ready, height);
    case BoostEvent(b, estimate, skip, height) => BoostSlots(s, cfg, b, estimate, skip, height);
    case CreateCpfpEvent(b, estimate, height) => CpfpSlots(s, cfg, b, estimate, height);
    case _ => ClientOpSlots(s, cfg, e);
  }

  lemma {:induction false} RunSlots(s: State, cfg: Config, es: seq<Event>)
    requires Inv(s) && cfg.Valid() && AdmissibleRun(s, cfg, es)
    ensures |Occupied(Run(s, cfg, es))| <= Fees.Max(cfg.maxUnconfirmedSpeedups, |Occupied(s)|) + ConfirmationsLost(s, cfg, es)
    decreases |es|
  {
    hide Inv, Step, Admissible, TakenBackBy, Occupied;
    if es != [] {
      StepKeepsInv(s, cfg, es[0]);
      StepSlots(s, cfg, es[0]);
      RunSlots(Step(s, cfg, es[0]), cfg, es[1..]);
    }
  }

  /** The slot bound over every run: the maximum, plus the confirmations that reorgs took back on the way. */
  lemma SlotBound(cfg: Config, es: seq<Event>)
    requires cfg.Valid() && AdmissibleRun(EMPTY, cfg, es)
    ensures |Occupied(Run(EMPTY, cfg, es))| <= cfg.maxUnconfirmedSpeedups + ConfirmationsLost(EMPTY, cfg, es)
  {
    assert Occupied(EMPTY) == {};
    EmptyInv();
    hide Inv, AdmissibleRun, ConfirmationsLost, Run, Occupied;
    RunSlots(EMPTY, cfg, es);
  }
}

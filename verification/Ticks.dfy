/** What one event, one tick and a whole run do to a record: allowed edges, guards, and build-before-send. */
module Ticks {
  import opened Types
  import opened Oracles
  import Fees
  import opened States
  import opened Funding
  import opened Failures
  import opened Dispatching
  import opened Engines
  import opened FeeLaws
  import opened Invariants
  import opened Evolution
  import opened FailureLaws
  import opened CascadeLaws
  import opened GrowthLaws
  import opened BuildLaws
  import opened ReviewLaws
  import opened DispatchLaws
  import opened OutcomeLaws
  import opened CreationLaws
  import opened Runs
  import opened LifecycleLaws

  // ---------------------------------------------------------------- steps 5 and 6

  ghost predicate FeesOk(cfg: Config, s: State) {
    forall t :: t in s.txs ==> FeeOk(cfg, s.txs[t])
  }

  /** Old records keep their lifecycle; a new record is a well-priced speedup that has never been sent. */
  ghost predicate Creates(cfg: Config, s: State, s': State) {
    && AllStill(s, s', cfg.maxFeerate)
    && (forall t :: t in s'.txs && t !in s.txs ==>
          Prebuilt(s', t) && s'.txs[t].failGuardUntil.None? && (FeesOk(cfg, s) ==> FeeOk(cfg, s'.txs[t])))
  }

  lemma StillPriced(cfg: Config, a: CoordinatedTx, b: CoordinatedTx)
    requires Still(a, b, cfg.maxFeerate) && FeeOk(cfg, a)
    ensures FeeOk(cfg, b)
  {}

  lemma CreatesKeepsFees(cfg: Config, s: State, s': State)
    requires Creates(cfg, s, s') && FeesOk(cfg, s)
    ensures FeesOk(cfg, s')
  {
    hide FeeOk, Still;
    forall t | t in s'.txs ensures FeeOk(cfg, s'.txs[t]) {
      if t in s.txs {
        StillPriced(cfg, s.txs[t], s'.txs[t]);
      }
    }
  }

  lemma MarksCreate(cfg: Config, s: State, s': State)
    requires OnlyMarksDiffer(s, s')
    ensures Creates(cfg, s, s')
  {
    forall t | t in s.txs ensures t in s'.txs && Still(s.txs[t], s'.txs[t], cfg.maxFeerate) {
      assert SameShape(s.txs[t], s'.txs[t]);
    }
  }

  lemma SaveCreates(cfg: Config, s: State, s': State, r: CoordinatedTx)
    requires s'.txs == s.txs[r.txid := r] && r.txid !in s.txs
    requires r.kind.Speedup? && r.state.ToDispatch? && r.broadcastBlockHeight.None? && r.failGuardUntil.None?
    requires FeesOk(cfg, s) ==> FeeOk(cfg, r)
    ensures Creates(cfg, s, s')
  {
    hide FeeOk;
  }

  lemma CreatesTransitive(cfg: Config, a: State, b: State, c: State)
    requires Creates(cfg, a, b) && Creates(cfg, b, c)
    ensures Creates(cfg, a, c)
  {
    forall t | t in a.txs ensures t in c.txs && Still(a.txs[t], c.txs[t], cfg.maxFeerate) {
      assert Still(a.txs[t], b.txs[t], cfg.maxFeerate) && Still(b.txs[t], c.txs[t], cfg.maxFeerate);
    }
    if FeesOk(cfg, a) {
      CreatesKeepsFees(cfg, a, b);
      CreatesKeepsFees(cfg, b, c);
    }
    hide FeeOk;
    forall t | t in c.txs && t !in a.txs ensures Prebuilt(c, t) && c.txs[t].failGuardUntil.None? {
      if t in b.txs {
        StillPrebuilt(cfg, b, c, t);
      }
    }
  }

  lemma StillPrebuilt(cfg: Config, b: State, c: State, t: Txid)
    requires Creates(cfg, b, c) && Prebuilt(b, t) && b.txs[t].failGuardUntil.None?
    ensures Prebuilt(c, t) && c.txs[t].failGuardUntil.None?
  {
    hide FeeOk;
    assert Still(b.txs[t], c.txs[t], cfg.maxFeerate);
  }

  lemma SameTxsCreate(cfg: Config, s: State, a: State, b: State)
    requires Creates(cfg, s, a) && b.txs == a.txs
    ensures Creates(cfg, s, b)
  {
    hide FeeOk;
  }

  lemma SameCreates(cfg: Config, s: State)
    ensures Creates(cfg, s, s)
  {
    hide FeeOk;
  }

  lemma NewIsFresh(s: State, r: CoordinatedTx)
    requires NewRecord(s, r)
    ensures r.txid !in s.txs && r.kind.Speedup? && r.state.ToDispatch?
  {}

  lemma SaveBuiltCreates(cfg: Config, s: State, r: CoordinatedTx)
    requires Inv(s) && NewRecord(s, r) && r.broadcastBlockHeight.None? && r.failGuardUntil.None?
    requires FeesOk(cfg, s) ==> FeeOk(cfg, r)
    ensures r.kind.Speedup? && Creates(cfg, s, SaveSpeedup(Claim(s, r.Claimed()), r))
  {
    hide Inv, Claim, OnlyMarksDiffer, Creates, FeesOk;
    NewIsFresh(s, r);
    var claimed := Claim(s, r.Claimed());
    ClaimKeepsInv(s, r.Claimed());
    MarksCreate(cfg, s, claimed);
    assert r.txid !in claimed.txs by { ClaimReads(s, r.Claimed()); }
    assert FeesOk(cfg, claimed) ==> FeesOk(cfg, s) by { MarksKeepFees(cfg, s, claimed); }
    SaveCreates(cfg, claimed, SaveSpeedup(claimed, r), r);
    CreatesTransitive(cfg, s, claimed, SaveSpeedup(claimed, r));
  }

  lemma MarksKeepFees(cfg: Config, s: State, s': State)
    requires OnlyMarksDiffer(s, s')
    ensures FeesOk(cfg, s') ==> FeesOk(cfg, s)
  {
    if FeesOk(cfg, s') {
      forall t | t in s.txs ensures FeeOk(cfg, s.txs[t]) {
        assert SameShape(s.txs[t], s'.txs[t]) && FeeOk(cfg, s'.txs[t]);
      }
    }
  }

  lemma NoteCapCreates(s: State, cfg: Config, tip: CoordinatedTx, r: CoordinatedTx, q: BuildRequest, capped: bool)
    ensures Creates(cfg, s, NoteCap(s, cfg, tip, r, q, capped))
  {
    hide FeeOk;
  }

  lemma NewSpeedupFields(x: BuildResult, parentVsizes: seq<nat>, kind: SpeedupKind, height: BlockHeight)
    ensures var r := NewSpeedup(x, parentVsizes, kind, height);
            r.broadcastBlockHeight.None? && r.failGuardUntil.None?
  {}

  /** A boost multiplies its tip's bump by a factor of at least one. */
  lemma BoostPriced(cfg: Config, s: State, all: seq<CoordinatedTx>, tip: CoordinatedTx, rate: nat, x: BuildResult,
                    height: BlockHeight)
    requires cfg.Valid() && tip.kind.Speedup? && tip.txid in s.txs && s.txs[tip.txid] == tip && FeesOk(cfg, s)
    requires var q := BoostRequest(cfg, all, tip, rate); q.isRbf ==> |tip.FundingInputs()| <= |x.fundingInputs|
    ensures var q := BoostRequest(cfg, all, tip, rate);
            FeeOk(cfg, NewSpeedup(x, q.parentVsizes, BoostKind(tip, q, x), height))
  {
    var q := BoostRequest(cfg, all, tip, rate);
    assert FeeOk(cfg, s.txs[tip.txid]);
    var bump := tip.kind.speedup.context.bumpFeeUsed;
    if cfg.baseFeeMultiplier >= 1.0 {
      assert bump * cfg.bumpFeePercentage >= bump * 1.0;
    }
    NewSpeedupPriced(cfg, x, BoostKind(tip, q, x), height);
  }

  lemma BoostCreates(s: State, cfg: Config, b: Builder, estimate: Option<nat>, skipBoost: bool, height: BlockHeight)
    requires Inv(s) && FreshBuilder(s, b) && cfg.Valid()
    ensures Creates(cfg, s, BoostIfStale(s, cfg, b, estimate, skipBoost, height))
  {
    SameCreates(cfg, s);
    hide Inv, FreshBuilder, StaleTip, Masked, SpeedupRecords, SameCore, Fees.NetworkFeeRate, Claim, Waiting, BoostBuild;
    hide NewRecord, BuiltInputs, SaveSpeedup, NewSpeedup, BoostKind, NoteCap, BoostRequest, PaysForSize, Creates, FeeOk;
    if !skipBoost && StaleTip(cfg, SpeedupRecords(s), height).Some? {
      var noted, tip, q, s', built := BoostFacts(s, cfg, b, estimate, height);
      SameTxsCreate(cfg, s, s, noted);
      if built.None? {
        SameTxsCreate(cfg, s, s, s');
      } else {
        var r := NewSpeedup(built.value, q.parentVsizes, BoostKind(tip, q, built.value), height);
        var saved, done := SaveSpeedup(s', r), NoteCap(SaveSpeedup(s', r), cfg, tip, r, q, built.value.capped);
        NewSpeedupFields(built.value, q.parentVsizes, BoostKind(tip, q, built.value), height);
        if FeesOk(cfg, noted) {
          BoostPriced(cfg, noted, SpeedupRecords(s), tip, Fees.NetworkFeeRate(cfg, estimate).0, built.value, height);
        }
        SaveBuiltCreates(cfg, noted, r);
        NoteCapCreates(saved, cfg, tip, r, q, built.value.capped);
        CreatesTransitive(cfg, noted, saved, done);
        CreatesTransitive(cfg, s, noted, done);
      }
    }
  }

  lemma SaveReads(s: State, r: CoordinatedTx)
    requires r.kind.Speedup?
    ensures SaveSpeedup(s, r).txs == s.txs[r.txid := r]
  {}

  lemma BuildCpfpCreates(s: State, cfg: Config, b: Builder, q: BuildRequest, covered: seq<Txid>, height: BlockHeight)
    requires Inv(s) && FreshBuilder(s, b) && 0 < cfg.dustLimit && NoDup(covered) && q.bump == cfg.baseFeeMultiplier
    ensures Creates(cfg, s, BuildCpfp(s, cfg, b, q, covered, height))
  {
    hide Inv, KeysOk, ListOk, LineageOk, QueueOk, InputsOk, LifecycleOk, ParentsOk, ReservedOk, FreshBuilder, NoDup;
    hide BuildSpeedup, BuildContract, Claim, NewRecord, BuiltInputs, ChosenFunding, Creates, SaveSpeedup, NewSpeedup, FeeOk;
    InvParts(s);
    BuildSpeedupContract(s, cfg, b, q, None);
    FailedBuild(s, cfg, b, q, None);
    var (s', built) := BuildSpeedup(s, cfg, b, q, None);
    SameCreates(cfg, s);
    if built.None? {
      SameTxsCreate(cfg, s, s, s');
    } else {
      CpfpRecord(s, cfg, b, q, covered, built.value, s', height);
      var kind := CPFP(covered, MakeContext(built.value.fundingInputs, q.bump, q.parentVsizes));
      var r := NewSpeedup(built.value, q.parentVsizes, kind, height);
      NewSpeedupFields(built.value, q.parentVsizes, kind, height);
      NewSpeedupPriced(cfg, built.value, kind, height);
      SaveBuiltCreates(cfg, s, r);
      SaveReads(s', r);
      SaveReads(RemovePending(s', Elements(covered)), r);
      SaveReads(AddNews(RemovePending(s', Elements(covered)), MaxFeeRateReached(r.txid, r.feeInfo.packageFeeRate)), r);
      SameTxsCreate(cfg, s, SaveSpeedup(s', r), BuildCpfp(s, cfg, b, q, covered, height));
    }
  }

  lemma CpfpCreates(s: State, cfg: Config, b: Builder, estimate: Option<nat>, height: BlockHeight)
    requires Inv(s) && FreshBuilder(s, b) && 0 < cfg.dustLimit
    ensures Creates(cfg, s, CreateCpfpBatch(s, cfg, b, estimate, height))
  {
    hide Inv, KeysOk, ListOk, LineageOk, QueueOk, InputsOk, LifecycleOk, ReservedOk, FreshBuilder, AnyWaiting;
    hide PendingParents, SpeedupRecords, SameCore, LiveInMempool, Evolves, Creates;
    InvParts(s);
    var pruned := PrunePending(s);
    RemovePendingKeepsInv(s, set t | t in s.psp && Prunable(s, t));
    PruneReads(s);
    SameCreates(cfg, s);
    SameTxsCreate(cfg, s, s, pruned);
    var parents := PendingParents(s, s.psp);
    PendingParentsDistinct(s, s.psp);
    hide ParentsOk, NoDup;
    var all := SpeedupRecords(s);
    if parents != [] && SlotFree(cfg, all) {
      hide Fees.NetworkFeeRate, FirstBatch, ParentVsizes, BuildCpfp, Txids;
      var (rate, news) := Fees.NetworkFeeRate(cfg, estimate);
      var batch := parents[..FirstBatch(cfg, parents, 0, 0)];
      var vsizes := ParentVsizes(batch);
      var noted := NoteRate(pruned, news);
      NoteRateKeepsInv(pruned, news);
      NotedReads(pruned, news);
      SameTxsCreate(cfg, s, s, noted);
      hide NoteRate, SlotFree, PrunePending;
      SameCoreTransitive(s, pruned, noted);
      FreshBuilderNoted(s, b, noted);
      BatchTxidsDistinct(parents, FirstBatch(cfg, parents, 0, 0));
      if vsizes != [] {
        var q := CpfpRequest(cfg, all, vsizes, rate);
        BuildCpfpCreates(noted, cfg, b, q, Txids(batch), height);
        CreatesTransitive(cfg, s, noted, BuildCpfp(noted, cfg, b, q, Txids(batch), height));
      }
    }
  }

  // ---------------------------------------------------------------- one event

  /** The block height at which a review arms a guard, plus the window. */
  function Deadline(cfg: Config, e: Event): BlockHeight {
    if e.ReviewClientsEvent? || e.ReviewSpeedupsEvent? then e.height + cfg.maxMonitoringConfirmations else 0
  }

  /** How a record present before and after an event may differ. */
  predicate EventMove(cfg: Config, e: Event, a: CoordinatedTx, b: CoordinatedTx) {
    match e
    case ReviewClientsEvent(_, _, _) => ReviewMove(a, b, Deadline(cfg, e))
    case ReviewSpeedupsEvent(_, _) => ReviewPath(a, b, Deadline(cfg, e))
    case DispatchClientsEvent(_, _, _, _, _) => DispatchMove(a, b)
    case DispatchSpeedupsEvent(_, _, _) => DispatchMove(a, b)
    case _ => Still(a, b, cfg.maxFeerate)
  }

  lemma ClientOpStill(s: State, cfg: Config, e: Event, t: Txid)
    requires e.RegisterEvent? || e.AddFundingEvent? || e.CancelEvent?
    requires t in s.txs && t in Step(s, cfg, e).txs
    ensures Still(s.txs[t], Step(s, cfg, e).txs[t], cfg.maxFeerate)
  {}

  lemma EventMoves(s: State, cfg: Config, e: Event, t: Txid)
    requires Inv(s) && cfg.Valid() && Admissible(s, cfg, e) && t in s.txs && t in Step(s, cfg, e).txs
    ensures EventMove(cfg, e, s.txs[t], Step(s, cfg, e).txs[t])
  {
    hide Inv, ReviewActive, ReviewSpeedups, DispatchPending, DispatchPendingSpeedups, BoostIfStale, CreateCpfpBatch;
    hide Register, AddFunding, Cancel, ConsistentNode, FreshBuilder, FreshOutpoint, ReviewMove, ReviewPath, DispatchMove, Still, FeeOk;
    match e
    case ReviewClientsEvent(_, _, _) => ReviewClientsMoves(s, cfg, e, t);
    case ReviewSpeedupsEvent(status, height) => ReviewSpeedupsMoves(s, cfg, status, height);
    case DispatchClientsEvent(_, _, _, _, _) => DispatchEventMoves(s, cfg, e, t);
    case DispatchSpeedupsEvent(_, _, _) => DispatchEventMoves(s, cfg, e, t);
    case BoostEvent(b, estimate, skip, height) => BoostCreates(s, cfg, b, estimate, skip, height);
    case CreateCpfpEvent(b, estimate, height) => CpfpCreates(s, cfg, b, estimate, height);
    case _ => ClientOpStill(s, cfg, e, t);
  }

  lemma StoredLife(s: State, t: Txid)
    requires Inv(s) && t in s.txs
    ensures LifeOf(s.txs[t])
  {
    hide Structure, Reservations, ParentsOk, OnePrebuilt;
  }

  /** Lifecycle safety of one event: one allowed edge, except that a speedup review may take a Confirmed record to
      Failed; a terminal state is never left. */
  lemma LifecycleSafety(s: State, cfg: Config, e: Event, t: Txid)
    requires Inv(s) && cfg.Valid() && Admissible(s, cfg, e) && t in s.txs && t in Step(s, cfg, e).txs
    ensures var a, b := s.txs[t], Step(s, cfg, e).txs[t];
      && b.tx == a.tx
      && EdgePath(a.state, b.state)
      && (!a.state.CanTransitionTo(b.state) ==> e.ReviewSpeedupsEvent? && a.state.Confirmed? && b.state.Failed?)
      && (a.state.Terminal() ==> b.state == a.state)
      && (b.settledBlockHeight.Some? <==> b.state.Terminal())
      && (b.state.OnNode() ==> b.broadcastBlockHeight.Some?)
  {
    hide Inv, Step, Admissible;
    EventMoves(s, cfg, e, t);
    StepKeepsInv(s, cfg, e);
    StoredLife(Step(s, cfg, e), t);
  }

  /** Why H3: an acceptance writes the batch snapshot back unchecked, so it follows the lifecycle exactly when the
      stored record has not been settled in the meantime. */
  lemma AcceptanceNeedsLiveRecord(s: State, cfg: Config, node: Node, d: Dispatch, height: BlockHeight, fee: FeeInfo)
    requires d.tx.txid in s.txs && Accepted(node, d)
    ensures var s' := HandleDispatchResult(s, cfg, node, d, height, fee);
      && d.tx.txid in s'.txs
      && (s.txs[d.tx.txid].state.CanTransitionTo(s'.txs[d.tx.txid].state) <==> !s.txs[d.tx.txid].state.Terminal())
  {
    hide MarkReplaced;
  }

  /** A record appears only by registration, or as a speedup that has never been sent. */
  lemma NewRecords(s: State, cfg: Config, e: Event, t: Txid)
    requires Inv(s) && cfg.Valid() && Admissible(s, cfg, e) && t !in s.txs && t in Step(s, cfg, e).txs
    ensures e.RegisterEvent? || e.BoostEvent? || e.CreateCpfpEvent?
    ensures Step(s, cfg, e).txs[t].state.ToDispatch? && Step(s, cfg, e).txs[t].broadcastBlockHeight.None?
    ensures Step(s, cfg, e).txs[t].kind.Speedup? <==> !e.RegisterEvent?
  {
    hide Inv, ReviewActive, ReviewSpeedups, DispatchPending, DispatchPendingSpeedups, BoostIfStale, CreateCpfpBatch;
    hide ConsistentNode, FreshBuilder, FreshOutpoint, ReviewMove, ReviewPath, DispatchMove, Still, FeeOk;
    match e
    case ReviewClientsEvent(_, _, _) => ReviewClientsMoves(s, cfg, e, t);
    case ReviewSpeedupsEvent(status, height) => ReviewSpeedupsMoves(s, cfg, status, height);
    case DispatchClientsEvent(_, _, _, _, _) => DispatchKeepsKeys(s, cfg, e);
    case DispatchSpeedupsEvent(_, _, _) => DispatchKeepsKeys(s, cfg, e);
    case BoostEvent(b, estimate, skip, height) => BoostCreates(s, cfg, b, estimate, skip, height);
    case CreateCpfpEvent(b, estimate, height) => CpfpCreates(s, cfg, b, estimate, height);
    case _ =>
  }

  ghost predicate StaysStored(s: State, cfg: Config, es: seq<Event>, t: Txid)
    decreases |es|
  {
    t in s.txs && (es != [] ==> StaysStored(Step(s, cfg, es[0]), cfg, es[1..], t))
  }

  /** Finalized and Failed are never left, however long the record stays in the store. */
  lemma {:induction false} SettledForever(s: State, cfg: Config, es: seq<Event>, t: Txid)
    requires Inv(s) && cfg.Valid() && AdmissibleRun(s, cfg, es) && StaysStored(s, cfg, es, t)
    requires s.txs[t].state.Terminal()
    ensures t in Run(s, cfg, es).txs
    ensures Run(s, cfg, es).txs[t].state == s.txs[t].state && Run(s, cfg, es).txs[t].tx == s.txs[t].tx
    decreases |es|
  {
    hide Inv, Step, Admissible;
    if es != [] {
      StepKeepsInv(s, cfg, es[0]);
      LifecycleSafety(s, cfg, es[0], t);
      SettledForever(Step(s, cfg, es[0]), cfg, es[1..], t);
    }
  }

  // ---------------------------------------------------------------- the reorg-flap guard

  /** `t` stays stored and off the node at every point of the run. */
  ghost predicate StaysWaiting(s: State, cfg: Config, es: seq<Event>, t: Txid)
    decreases |es|
  {
    && t in s.txs && !s.txs[t].state.OnNode()
    && (es != [] ==> StaysWaiting(Step(s, cfg, es[0]), cfg, es[1..], t))
  }

  lemma EventKeepsGuard(s: State, cfg: Config, e: Event, t: Txid)
    requires Inv(s) && cfg.Valid() && Admissible(s, cfg, e) && t in s.txs && t in Step(s, cfg, e).txs
    ensures var a, b := s.txs[t], Step(s, cfg, e).txs[t];
      && (a.failGuardUntil.Some? ==> b.failGuardUntil == a.failGuardUntil
                                     || (b.failGuardUntil.None? && b.state.OnNode()))
      && (a.failGuardUntil.None? && b.failGuardUntil.Some? ==>
            (e.ReviewClientsEvent? || e.ReviewSpeedupsEvent?) && b.failGuardUntil.value == Deadline(cfg, e))
      && (b.state.OnNode() ==> b.failGuardUntil.None?)
  {
    hide Inv, Step, Admissible;
    EventMoves(s, cfg, e, t);
    StepKeepsInv(s, cfg, e);
    StoredLife(Step(s, cfg, e), t);
  }

  /** Once armed, the deadline does not move until the transaction is accepted or found confirmed. */
  lemma {:induction false} GuardIsAnchored(s: State, cfg: Config, es: seq<Event>, t: Txid, deadline: BlockHeight)
    requires Inv(s) && cfg.Valid() && AdmissibleRun(s, cfg, es) && StaysWaiting(s, cfg, es, t)
    requires s.txs[t].failGuardUntil == Some(deadline)
    ensures t in Run(s, cfg, es).txs && Run(s, cfg, es).txs[t].failGuardUntil == Some(deadline)
    decreases |es|
  {
    hide Inv, Step, Admissible;
    if es != [] {
      StepKeepsInv(s, cfg, es[0]);
      EventKeepsGuard(s, cfg, es[0], t);
      GuardIsAnchored(Step(s, cfg, es[0]), cfg, es[1..], t, deadline);
    }
  }

  // ---------------------------------------------------------------- one tick

  datatype TickInput = TickInput(
    clientStatus: Txid -> ChainStatus, reviewOrder: seq<Txid>,
    speedupStatus: Txid -> ChainStatus,
    clientNode: Node, dispatchOrder: seq<Txid>, clientRetry: bool, clientEstimate: Option<nat>,
    speedupNode: Node, speedupRetry: bool,
    boostBuilder: Builder, boostEstimate: Option<nat>,
    cpfpBuilder: Builder, cpfpEstimate: Option<nat>,
    height: BlockHeight)

  /** Steps 1 to 3. */
  function FirstEvents(i: TickInput): seq<Event> {
    [ReviewClientsEvent(i.clientStatus, i.reviewOrder, i.height),
     ReviewSpeedupsEvent(i.speedupStatus, i.height),
     DispatchClientsEvent(i.clientNode, i.dispatchOrder, i.clientRetry, i.clientEstimate, i.height)]
  }

  /** Steps 4 to 6; a boost that failed in step 4 makes step 5 skip. */
  function LastEvents(s: State, cfg: Config, i: TickInput): seq<Event> {
    var dispatched := DispatchPendingSpeedups(s, cfg, i.speedupNode, i.speedupRetry, i.height);
    [DispatchSpeedupsEvent(i.speedupNode, i.speedupRetry, i.height),
     BoostEvent(i.boostBuilder, i.boostEstimate, BoostFailed(s, dispatched, i.speedupRetry), i.height),
     CreateCpfpEvent(i.cpfpBuilder, i.cpfpEstimate, i.height)]
  }

  function TickEvents(s: State, cfg: Config, i: TickInput): seq<Event> {
    FirstEvents(i) + LastEvents(Run(s, cfg, FirstEvents(i)), cfg, i)
  }

  /** One tick of the coordinator. */
  function Tick(s: State, cfg: Config, i: TickInput): State {
    var s1 := ReviewActive(s, cfg, i.clientStatus, i.reviewOrder, i.height);
    var s2 := ReviewSpeedups(s1, cfg, i.speedupStatus, i.height);
    var s3 := DispatchPending(s2, cfg, i.clientNode, i.dispatchOrder, i.clientRetry, i.clientEstimate, i.height);
    var s4 := DispatchPendingSpeedups(s3, cfg, i.speedupNode, i.speedupRetry, i.height);
    var s5 := BoostIfStale(s4, cfg, i.boostBuilder, i.boostEstimate, BoostFailed(s3, s4, i.speedupRetry), i.height);
    CreateCpfpBatch(s5, cfg, i.cpfpBuilder, i.cpfpEstimate, i.height)
  }

  lemma {:induction false} RunConcat(s: State, cfg: Config, a: seq<Event>, b: seq<Event>)
    ensures Run(s, cfg, a + b) == Run(Run(s, cfg, a), cfg, b)
    ensures AdmissibleRun(s, cfg, a + b) <==> AdmissibleRun(s, cfg, a) && AdmissibleRun(Run(s, cfg, a), cfg, b)
    decreases |a|
  {
    hide Step, Admissible;
    if a == [] {
      assert a + b == b;
    } else {
      assert (a + b)[0] == a[0] && (a + b)[1..] == a[1..] + b;
      RunConcat(Step(s, cfg, a[0]), cfg, a[1..], b);
    }
  }

  lemma RunThree(s: State, cfg: Config, e1: Event, e2: Event, e3: Event)
    ensures Run(s, cfg, [e1, e2, e3]) == Step(Step(Step(s, cfg, e1), cfg, e2), cfg, e3)
    ensures AdmissibleRun(s, cfg, [e1, e2, e3]) <==>
              Admissible(s, cfg, e1) && Admissible(Step(s, cfg, e1), cfg, e2)
              && Admissible(Step(Step(s, cfg, e1), cfg, e2), cfg, e3)
  {
    hide Step, Admissible;
    assert [e1, e2, e3][1..] == [e2, e3] && [e2, e3][1..] == [e3] && [e3][1..] == [];
    assert Run(s, cfg, [e1, e2, e3]) == Run(Step(s, cfg, e1), cfg, [e2, e3]);
    assert Run(Step(s, cfg, e1), cfg, [e2, e3]) == Run(Step(Step(s, cfg, e1), cfg, e2), cfg, [e3]);
    assert AdmissibleRun(Step(s, cfg, e1), cfg, [e2, e3])
           <==> Admissible(Step(s, cfg, e1), cfg, e2) && AdmissibleRun(Step(Step(s, cfg, e1), cfg, e2), cfg, [e3]);
  }

  lemma FirstThree(s: State, cfg: Config, i: TickInput)
    ensures Run(s, cfg, FirstEvents(i))
            == DispatchPending(ReviewSpeedups(ReviewActive(s, cfg, i.clientStatus, i.reviewOrder, i.height), cfg, i.speedupStatus,
                                              i.height),
                               cfg, i.clientNode, i.dispatchOrder, i.clientRetry, i.clientEstimate, i.height)
  {
    hide ReviewActive, ReviewSpeedups, DispatchPending, Run;
    RunThree(s, cfg, FirstEvents(i)[0], FirstEvents(i)[1], FirstEvents(i)[2]);
  }

  lemma LastThree(s: State, cfg: Config, i: TickInput)
    ensures var s4 := DispatchPendingSpeedups(s, cfg, i.speedupNode, i.speedupRetry, i.height);
            Run(s, cfg, LastEvents(s, cfg, i))
            == CreateCpfpBatch(BoostIfStale(s4, cfg, i.boostBuilder, i.boostEstimate, BoostFailed(s, s4, i.speedupRetry), i.height),
                               cfg, i.cpfpBuilder, i.cpfpEstimate, i.height)
  {
    hide DispatchPendingSpeedups, BoostIfStale, CreateCpfpBatch, BoostFailed, Run;
    var last := LastEvents(s, cfg, i);
    RunThree(s, cfg, last[0], last[1], last[2]);
  }

  /** A tick is a run of six events, so everything proved of runs holds of ticks. */
  lemma TickIsRun(s: State, cfg: Config, i: TickInput)
    ensures Tick(s, cfg, i) == Run(s, cfg, TickEvents(s, cfg, i))
  {
    hide ReviewActive, ReviewSpeedups, DispatchPending, DispatchPendingSpeedups, BoostIfStale, CreateCpfpBatch, BoostFailed;
    hide Run, FirstEvents, LastEvents, AdmissibleRun;
    FirstThree(s, cfg, i);
    var s3 := Run(s, cfg, FirstEvents(i));
    RunConcat(s, cfg, FirstEvents(i), LastEvents(s3, cfg, i));
    LastThree(s3, cfg, i);
  }

  lemma KeysGrowNot(s: State, cfg: Config, e: Event, t: Txid)
    requires Inv(s) && cfg.Valid() && Admissible(s, cfg, e)
    requires e.ReviewClientsEvent? || e.ReviewSpeedupsEvent? || e.DispatchClientsEvent?
    requires t in Step(s, cfg, e).txs
    ensures t in s.txs && s.txs[t].tx == Step(s, cfg, e).txs[t].tx
  {
    hide Inv, Step, Admissible;
    if t !in s.txs {
      NewRecords(s, cfg, e, t);
    } else {
      EventMoves(s, cfg, e, t);
    }
  }

  /** Whatever step 4 passes to the node was stored, as the same transaction, before the tick began. */
  lemma SentWasStored(s: State, cfg: Config, i: TickInput, d: CoordinatedTx)
    requires Inv(s) && cfg.Valid() && AdmissibleRun(s, cfg, FirstEvents(i))
    requires d in SpeedupBatch(Run(s, cfg, FirstEvents(i)), i.speedupRetry)
    ensures d.txid in s.txs && s.txs[d.txid].tx == d.tx
  {
    hide Inv, Step, Admissible, Run, AdmissibleRun, SpeedupBatch;
    var es := FirstEvents(i);
    RunThree(s, cfg, es[0], es[1], es[2]);
    RunKeepsInv(s, cfg, es);
    var s1 := Step(s, cfg, es[0]);
    var s2 := Step(s1, cfg, es[1]);
    var s3 := Step(s2, cfg, es[2]);
    StepKeepsInv(s, cfg, es[0]);
    StepKeepsInv(s1, cfg, es[1]);
    BatchStored(s3, i.speedupRetry, d);
    KeysGrowNot(s2, cfg, es[2], d.txid);
    KeysGrowNot(s1, cfg, es[1], d.txid);
    KeysGrowNot(s, cfg, es[0], d.txid);
  }
}

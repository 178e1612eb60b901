/** Concrete runs from the empty store. Each shows that a case the theorems allow for really occurs. */
module Scenarios {
  import opened Types
  import opened Oracles
  import opened States
  import opened Fees
  import opened Funding
  import opened Failures
  import opened Dispatching
  import opened Engines
  import opened Invariants
  import opened Evolution
  import opened CascadeLaws
  import opened GrowthLaws
  import opened DispatchLaws
  import opened OutcomeLaws
  import BuildLaws
  import opened CreationLaws
  import opened Runs
  import opened LifecycleLaws
  import opened ReviewOutcomes
  import opened SlotLaws
  import opened SlotReviews
  import opened SurvivorLaws
  import opened Ticks
  import opened EventOutcomes
  import opened SendLaws
  import opened ReleaseLaws
  import opened GuardLaws

  // ---------------------------------------------------------------- the actors

  function Settings(max: nat): Config {
    Config(max, 1, 1.0, 100, 2.0, 1, 0, 100, 4000, 1, 6, 1)
  }

  const FUND := Utxo(OutPoint(9, 0), 100_000)

  /** A client transaction that needs a speedup. */
  function ParentTx(t: Txid): Transaction {
    Transaction([OutPoint(90 + t, 0)], [1000], 10, 40)
  }

  function Parent(t: Txid, sent: bool, state: TransactionState, guard: Option<BlockHeight>): CoordinatedTx {
    CoordinatedTx(t, ParentTx(t), NeedsSpeedup, state, 0, None, if state.Failed? then Some(0) else None,
                  if sent then Some(0) else None, guard, 0, FeeInfo(10, 1, 1, 40))
  }

  /** A first CPFP over `parent`, paid from `funding`. */
  function CpfpTx(parent: Txid, funding: Utxo, change: nat, vsize: VSize): SpeedupTx {
    Transaction([OutPoint(parent, 0), funding.op], [change], vsize, 400)
  }

  function Cpfp(t: Txid, parent: Txid, funding: Utxo, change: nat, fee: nat, sent: bool, state: TransactionState,
                guard: Option<BlockHeight>, spent: bool): CoordinatedTx
  {
    var tx := CpfpTx(parent, funding, change, 100);
    CoordinatedTx(t, tx, Speedup(CPFP([parent], SpeedupContext([funding], None, 2.0, [10], spent))), state, 0, None, None,
                  if sent then Some(0) else None, guard, 0, FeeInfoForPaidSpeedup(tx, fee, 10))
  }

  /** A node with one answer to every broadcast and one to every probe. */
  function PlainNode(accepts: bool, unspent: bool): Node {
    Node((c: Txid, p: Txid) => true, (t: Txid) => accepts, (t: Txid) => None, (op: OutPoint) => unspent)
  }

  /** A builder with one answer, asked for `estimate` vbytes first. */
  function PlainBuilder(t: Txid, tx: SpeedupTx, estimate: VSize): Builder {
    Builder((call: nat, us: seq<Utxo>) => estimate, (call: nat, us: seq<Utxo>, fee: nat) => Built(t, tx))
  }

  /** The same store up to news. */
  predicate Is(s: State, shape: State) {
    s == shape.(news := s.news)
  }

  // ---------------------------------------------------------------- events on small stores

  lemma {:induction false} ReachableStep(cfg: Config, s: State, e: Event)
    requires Reachable(cfg, s) && Admissible(s, cfg, e)
    ensures Reachable(cfg, Step(s, cfg, e))
  {
    hide Step, Admissible;
    var es :| AdmissibleRun(EMPTY, cfg, es) && Run(EMPTY, cfg, es) == s;
    RunConcat(EMPTY, cfg, es, [e]);
    assert [e][1..] == [];
    assert Run(s, cfg, [e]) == Step(s, cfg, e);
    assert AdmissibleRun(s, cfg, [e]);
    assert Run(EMPTY, cfg, es + [e]) == Step(s, cfg, e);
  }

  lemma EmptyReachable(cfg: Config)
    ensures Reachable(cfg, EMPTY)
  {
    assert AdmissibleRun(EMPTY, cfg, []) && Run(EMPTY, cfg, []) == EMPTY;
  }

  /** A dispatch of one client transaction hands it to the handler once. */
  lemma OneClient(s: State, max: nat, node: Node, t: Txid)
    requires t in s.txs && !s.txs[t].kind.Speedup? && s.txs[t].state.ToDispatch? && s.txs[t].targetBlockHeight == 0
    requires !Malformed(Settings(max), s.txs[t]) && SendOne(s, node, s.txs[t]).Some?
    ensures DispatchPending(s, Settings(max), node, [t], true, None, 0)
            == HandleDispatchResult(s, Settings(max), node, Dispatch(s.txs[t], SendOne(s, node, s.txs[t]).value), 0,
                                    ComputeFeeForTx(s.txs[t].tx, 1))
  {
    hide SendOne, Malformed, HandleDispatchResult;
    var cfg, r, outcome := Settings(max), s.txs[t], SendOne(s, node, s.txs[t]).value;
    assert [t][1..] == [] && [r][1..] == [];
    assert ReadyToDispatch(s, [t], 0) == [r];
    assert RetryFilter([r], true) == [r];
    assert FatalResults(cfg, [r]) == [];
    assert SendResults(s, cfg, node, [r]) == [Dispatch(r, outcome)];
    assert DispatchAll(s, cfg, node, [r]) == [Dispatch(r, outcome)];
    assert NetworkFeeRate(cfg, None) == (1, None);
    OneOutcome(s, cfg, node, Dispatch(r, outcome), (tx: CoordinatedTx) => ComputeFeeForTx(tx.tx, 1));
  }

  lemma OneOutcome(s: State, cfg: Config, node: Node, d: Dispatch, fee: CoordinatedTx -> FeeInfo)
    ensures HandleAll(s, cfg, node, [d], 0, fee) == HandleDispatchResult(s, cfg, node, d, 0, fee(d.tx))
  {
    hide HandleDispatchResult;
    assert [d][1..] == [];
    assert HandleAll(HandleDispatchResult(s, cfg, node, d, 0, fee(d.tx)), cfg, node, [], 0, fee)
           == HandleDispatchResult(s, cfg, node, d, 0, fee(d.tx));
  }

  /** What the dispatcher finds for a transaction with live or unknown parents. */
  lemma SendPlain(s: State, accepts: bool, unspent: bool, r: CoordinatedTx)
    requires forall i :: 0 <= i < |r.tx.inputs| ==>
               !(r.tx.inputs[i].txid in s.txs && s.txs[r.tx.inputs[i].txid].state.Failed?)
    ensures SendOne(s, PlainNode(accepts, unspent), r) == Some(if accepts then Success else SendError)
  {}

  lemma OneSpeedup(s: State, t: Txid)
    requires s.speedups == [t] && t in s.txs
    ensures SpeedupRecords(s) == [s.txs[t]]
  {
    assert [t][1..] == [];
    assert Records(s.txs, []) == [];
  }

  lemma TwoSpeedups(s: State, t: Txid, u: Txid)
    requires s.speedups == [t, u] && t in s.txs && u in s.txs
    ensures SpeedupRecords(s) == [s.txs[t], s.txs[u]]
  {
    assert [t, u][1..] == [u] && [u][1..] == [];
    assert Records(s.txs, [u]) == [s.txs[u]];
  }

  lemma {:induction false} NoneLive(all: seq<CoordinatedTx>, n: nat)
    requires n <= |all| && forall i :: 0 <= i < n ==> !all[i].state.InMempool?
    ensures LiveInMempool(all, n) == []
  {
    if n > 0 {
      NoneLive(all, n - 1);
      assert !all[n - 1].IsLiveInMempool(all);
    }
  }

  // ---------------------------------------------------------------- the common beginning

  function S1(): State {
    EMPTY.(txs := map[4 := Parent(4, false, ToDispatch, None)], psp := [4])
  }

  function S2(): State {
    S1().(queue := [FUND.op], funding := map[FUND.op := FundingData(FUND, false, false)])
  }

  function S3(): State {
    S2().(txs := map[4 := Parent(4, true, InMempool, None)])
  }

  lemma Registers(cfg: Config, s: State, t: Txid) returns (s': State)
    requires cfg.Valid() && cfg.minSafeFeeRate == 1 && Reachable(cfg, s) && t !in s.txs && t !in s.lineage && t !in s.psp
    ensures Reachable(cfg, s') && s' == s.(txs := s.txs[t := Parent(t, false, ToDispatch, None)], psp := s.psp + [t])
  {
    var e := RegisterEvent(Registration(t, ParentTx(t), true, None, None), None, 0);
    hide Reachable;
    ReachableStep(cfg, s, e);
    s' := Step(s, cfg, e);
  }

  lemma Funds(cfg: Config, s: State) returns (s': State)
    requires cfg.minFundingAmount == 0 && Reachable(cfg, s) && FreshOutpoint(s, FUND.op) && FUND.op !in s.queue
    ensures Reachable(cfg, s')
    ensures s' == s.(queue := s.queue + [FUND.op], funding := s.funding[FUND.op := FundingData(FUND, false, false)])
  {
    hide Reachable, FreshOutpoint;
    ReachableStep(cfg, s, AddFundingEvent(FUND));
    s' := Step(s, cfg, AddFundingEvent(FUND));
  }

  /** A client parent is accepted. */
  lemma SendsParent(max: nat, s: State, t: Txid) returns (s': State)
    requires Reachable(Settings(max), s) && t in s.txs && s.txs[t] == Parent(t, false, ToDispatch, None) && 90 + t !in s.txs
    ensures Reachable(Settings(max), s') && s' == s.(txs := s.txs[t := Parent(t, true, InMempool, None)])
  {
    hide Reachable;
    var e := DispatchClientsEvent(PlainNode(true, true), [t], true, None, 0);
    SendPlain(s, true, true, s.txs[t]);
    OneClient(s, max, e.node, t);
    ReachableStep(Settings(max), s, e);
    s' := Step(s, Settings(max), e);
  }

  lemma Beginning(max: nat) returns (s: State)
    requires max > 0
    ensures Reachable(Settings(max), s) && s == S3()
  {
    hide Reachable, Parent;
    EmptyReachable(Settings(max));
    s := Registers(Settings(max), EMPTY, 4);
    assert FreshOutpoint(s, FUND.op) by { FundFresh(s); }
    s := Funds(Settings(max), s);
    s := SendsParent(max, s, 4);
  }

  lemma FundFresh(s: State)
    requires s.txs == map[4 := Parent(4, false, ToDispatch, None)] && s.lineage == map[] && s.funding == map[]
    ensures FreshOutpoint(s, FUND.op)
  {}

  // ---------------------------------------------------------------- building and sending a first CPFP

  lemma NothingPruned(s: State, p: Txid)
    requires s.psp == [p] && p in s.txs && !s.txs[p].state.Failed?
    ensures PrunePending(s) == s
  {
    assert [p][1..] == [];
    assert Excluding([p], {}) == [p];
    assert (set t | t in s.psp && Prunable(s, t)) == {};
  }

  /** Step 6 over one pending parent asks the builder for one CPFP. */
  lemma CreatesOne(s: State, cfg: Config, b: Builder, estimate: Option<nat>, p: Txid)
    requires s.psp == [p] && p in s.txs && s.txs[p].state.OnNode() && s.txs[p].kind.NeedsSpeedup? && s.txs[p].txid == p
    requires SlotFree(cfg, SpeedupRecords(s))
    ensures CreateCpfpBatch(s, cfg, b, estimate, 0)
            == BuildCpfp(NoteRate(s, NetworkFeeRate(cfg, estimate).1), cfg, b,
                         CpfpRequest(cfg, SpeedupRecords(s), [s.txs[p].tx.vsize], NetworkFeeRate(cfg, estimate).0), [p], 0)
  {
    hide SlotFree, SpeedupRecords, NetworkFeeRate, BuildCpfp, CpfpRequest, PrunePending;
    NothingPruned(s, p);
    var r := s.txs[p];
    assert [p][1..] == [] && [r][1..] == [];
    assert PendingParents(s, s.psp) == [r];
    assert FirstBatch(cfg, [r], 0, 0) == 1;
    assert [r][..1] == [r];
    assert ParentVsizes([r]) == [r.tx.vsize];
    assert Txids([r]) == [p];
  }

  /** The build loop ends in its first turn when the funding covers the fee and the size was not underestimated. */
  lemma BuildsAtOnce(s: State, cfg: Config, q: BuildRequest, t: Txid, tx: SpeedupTx, estimate: VSize, inputs: seq<Utxo>,
                     inherited: nat, derived: bool, fee: nat, capped: bool)
    requires inherited <= |inputs| && tx.vsize <= estimate
    requires (fee, capped) == ComputeSpeedupFee(cfg, Sum(q.parentVsizes), estimate, q.bump, q.feeRate, q.isRbf, q.chainDiff)
    requires TotalAmount(inputs) >= fee + cfg.dustLimit
    ensures BuildLoop(s, cfg, PlainBuilder(t, tx, estimate), q, inputs, inherited, derived, 0, 0)
            == (s, Some(BuildResult(t, tx, fee, capped, inputs, estimate)))
  {
    hide ComputeSpeedupFee, Sum, TotalAmount;
  }

  lemma BuildsCpfp(s: State, cfg: Config, q: BuildRequest, t: Txid, tx: SpeedupTx, estimate: VSize, u: Utxo, derived: bool,
                   fee: nat, capped: bool)
    requires tx.vsize <= estimate && ChosenFunding(s) == Some((u, derived))
    requires (fee, capped) == ComputeSpeedupFee(cfg, Sum(q.parentVsizes), estimate, q.bump, q.feeRate, q.isRbf, q.chainDiff)
    requires u.amount >= fee + cfg.dustLimit
    ensures BuildSpeedup(s, cfg, PlainBuilder(t, tx, estimate), q, None)
            == (SetSpent(s, u.op, true), Some(BuildResult(t, tx, fee, capped, [u], estimate)))
  {
    hide ComputeSpeedupFee, Sum, BuildLoop, ChosenFunding;
    assert TotalAmount([u]) == u.amount by { assert [u][1..] == []; }
    BuildsAtOnce(SetSpent(s, u.op, true), cfg, q, t, tx, estimate, [u], 0, derived, fee, capped);
  }

  /** The speedup `t` over `p`, built with `fee`. */
  function Built1(t: Txid, tx: SpeedupTx, p: Txid, vsize: nat, u: Utxo, bump: real, fee: nat): CoordinatedTx {
    CoordinatedTx(t, tx, Speedup(CPFP([p], SpeedupContext([u], None, bump, [vsize], false))), ToDispatch, 0, None, None, None, None,
                  0, FeeInfoForPaidSpeedup(tx, fee, vsize))
  }

  /** One CPFP over the only pending parent, paid from what `get_funding` chooses. */
  lemma CreatesCpfp(s: State, cfg: Config, estimate: Option<nat>, p: Txid, t: Txid, tx: SpeedupTx, size: VSize, u: Utxo,
                    derived: bool, fee: nat, capped: bool)
    requires s.psp == [p] && p in s.txs && s.txs[p].state.OnNode() && s.txs[p].kind.NeedsSpeedup? && s.txs[p].txid == p
    requires SlotFree(cfg, SpeedupRecords(s)) && ChosenFunding(s) == Some((u, derived)) && tx.vsize <= size
    requires t !in s.txs && t !in s.speedups && u.amount >= fee + cfg.dustLimit
    requires var q := CpfpRequest(cfg, SpeedupRecords(s), [s.txs[p].tx.vsize], NetworkFeeRate(cfg, estimate).0);
             (fee, capped) == ComputeSpeedupFee(cfg, Sum(q.parentVsizes), size, q.bump, q.feeRate, q.isRbf, q.chainDiff)
    ensures var paid := SetSpent(s, u.op, true);
            Is(CreateCpfpBatch(s, cfg, PlainBuilder(t, tx, size), estimate, 0),
               paid.(txs := paid.txs[t := Built1(t, tx, p, s.txs[p].tx.vsize, u, cfg.baseFeeMultiplier, fee)],
                     speedups := s.speedups + [t], psp := [], lineage := s.lineage[t := []]))
  {
    hide SlotFree, SpeedupRecords, NetworkFeeRate, ChosenFunding, ComputeSpeedupFee, CreateCpfpBatch, BuildSpeedup;
    hide FeeInfoForPaidSpeedup, ChainFeeDiff;
    var b := PlainBuilder(t, tx, size);
    CreatesOne(s, cfg, b, estimate, p);
    var (rate, news) := NetworkFeeRate(cfg, estimate);
    var q := CpfpRequest(cfg, SpeedupRecords(s), [s.txs[p].tx.vsize], rate);
    var noted := NoteRate(s, news);
    assert Sum([s.txs[p].tx.vsize]) == s.txs[p].tx.vsize by { assert [s.txs[p].tx.vsize][1..] == []; }
    NotedFunding(s, news);
    BuildsCpfp(noted, cfg, q, t, tx, size, u, derived, fee, capped);
    TakesAll(p);
  }

  lemma TakesAll(p: Txid)
    ensures Excluding([p], Elements([p])) == []
  {
    assert [p][1..] == [];
  }

  lemma NotedFunding(s: State, news: Option<News>)
    ensures ChosenFunding(NoteRate(s, news)) == ChosenFunding(s)
  {
    var noted := NoteRate(s, news);
    assert SpeedupRecords(noted) == SpeedupRecords(s);
    NotedRecords(s, noted, s.queue);
  }

  lemma {:induction false} NotedRecords(s: State, noted: State, queue: seq<OutPoint>)
    requires noted.funding == s.funding
    ensures FirstOpenRecord(noted, queue, false) == FirstOpenRecord(s, queue, false)
  {
    if queue != [] {
      NotedRecords(s, noted, queue[1..]);
    }
  }

  /** The fee of a CPFP with a parent of 10 vbytes, an estimate of 100 and a multiplier of two, below and at the cap. */
  lemma CpfpFee(max: nat, rate: nat)
    requires 1 <= rate <= 100
    ensures ComputeSpeedupFee(Settings(max), 10, 100, 2.0, rate, false, 0)
            == if 2 * (110 * rate - 10) > 10990 then (10990, true) else (2 * (110 * rate - 10), false)
  {
    var base := 110 * rate - 10;
    assert BaseFee(10, 100, rate, false, 0) == base;
    DoubleBump(base);
    assert FeeCap(Settings(max), 10, 100) == 10990;
  }

  lemma DoubleBump(fee: nat)
    ensures Bumped(fee, 2.0) == 2 * fee
  {
    var x := (2 * fee) as real;
    assert fee as real * 2.0 == x;
    assert (-x).Floor == -(2 * fee);
  }

  function First(sent: bool, state: TransactionState, guard: Option<BlockHeight>, spent: bool): CoordinatedTx {
    Cpfp(1, 4, FUND, 90_000, 2180, sent, state, guard, spent)
  }

  function S4(): State {
    S3().(txs := S3().txs[1 := First(false, ToDispatch, None, false)], speedups := [1], psp := [],
          funding := map[FUND.op := FundingData(FUND, true, false)], lineage := map[1 := []])
  }

  function S5(): State {
    S4().(txs := S4().txs[1 := First(true, InMempool, None, false)])
  }

  lemma NoSpeedupsYet(s: State)
    requires s.speedups == []
    ensures SpeedupRecords(s) == []
  {}

  /** With no speedup at all, the first unspent record of the queue pays. */
  lemma FundPays(s: State)
    requires s.speedups == [] && s.queue == [FUND.op] && FUND.op in s.funding && s.funding[FUND.op] == FundingData(FUND, false, false)
    ensures ChosenFunding(s) == Some((FUND, false))
  {
    NoSpeedupsYet(s);
  }

  lemma FreshFirst(s: State, b: Builder, tx: SpeedupTx, size: VSize)
    requires Is(s, S3()) && b == PlainBuilder(1, tx, size)
    ensures FreshBuilder(s, b)
  {
    assert FreshTxid(s, 1);
  }

  /** The first CPFP is built. */
  lemma BuildsFirst(max: nat) returns (s: State)
    requires max > 0
    ensures Reachable(Settings(max), s) && Is(s, S4())
  {
    hide Reachable, CreateCpfpBatch, ComputeSpeedupFee, FreshBuilder, FeeInfoForPaidSpeedup;
    s := Beginning(max);
    var cfg, tx := Settings(max), CpfpTx(4, FUND, 90_000, 100);
    var b, estimate := PlainBuilder(1, tx, 100), Some(10);
    NoSpeedupsYet(s);
    FundPays(s);
    assert SlotFree(cfg, SpeedupRecords(s));
    assert NetworkFeeRate(cfg, estimate) == (10, None);
    assert Sum([10]) == 10 by { assert [10][1..] == []; }
    CpfpFee(max, 10);
    FreshFirst(s, b, tx, 100);
    CreatesCpfp(s, cfg, estimate, 4, 1, tx, 100, FUND, false, 2180, false);
    ReachableStep(cfg, s, CreateCpfpEvent(b, estimate, 0));
    s := Step(s, cfg, CreateCpfpEvent(b, estimate, 0));
    assert s.txs == S4().txs && s.funding == S4().funding && s.lineage == S4().lineage;
  }

  // ---------------------------------------------------------------- sending a speedup

  /** A batch whose only member is accepted. */
  lemma SendsSpeedup(max: nat, s: State, r: CoordinatedTx) returns (s': State)
    requires Reachable(Settings(max), s) && SpeedupBatch(s, true) == [r] && !Malformed(Settings(max), r) && !r.IsRBF()
    requires forall i :: 0 <= i < |r.tx.inputs| ==>
               !(r.tx.inputs[i].txid in s.txs && s.txs[r.tx.inputs[i].txid].state.Failed?)
    ensures Reachable(Settings(max), s')
    ensures s' == s.(txs := s.txs[r.txid := r.(state := InMempool, broadcastBlockHeight := Some(0), failGuardUntil := None)])
  {
    var node, cfg := PlainNode(true, true), Settings(max);
    hide Reachable, SpeedupBatch, Malformed, SendOne;
    SendPlain(s, true, true, r);
    assert [r][1..] == [];
    assert FatalResults(cfg, [r]) == [];
    assert SendResults(s, cfg, node, [r]) == [Dispatch(r, Success)];
    assert SpeedupOutcomes(s, cfg, node, true) == [Dispatch(r, Success)];
    assert ConsistentNode(s, cfg, node, true, 0);
    OneOutcome(s, cfg, node, Dispatch(r, Success), KeepFee);
    ReachableStep(cfg, s, DispatchSpeedupsEvent(node, true, 0));
    s' := Step(s, cfg, DispatchSpeedupsEvent(node, true, 0));
  }

  lemma OneWaits(s: State, r: CoordinatedTx)
    requires SpeedupRecords(s) == [r] && r.state.ToDispatch?
    ensures SpeedupBatch(s, true) == [r]
  {
    assert [r][1..] == [];
    assert WaitingRecords([r]) == [r];
    assert RetryFilter([r], true) == [r];
  }

  lemma SecondWaits(s: State, q: CoordinatedTx, r: CoordinatedTx)
    requires SpeedupRecords(s) == [q, r] && !q.state.ToDispatch? && r.state.ToDispatch?
    ensures SpeedupBatch(s, true) == [r]
  {
    assert [q, r][1..] == [r] && [r][1..] == [];
    assert WaitingRecords([r]) == [r];
    assert WaitingRecords([q, r]) == [r];
    assert RetryFilter([r], true) == [r];
  }

  /** The first CPFP is in the mempool. */
  lemma FirstSent(max: nat) returns (s: State)
    requires max > 0
    ensures Reachable(Settings(max), s) && Is(s, S5())
  {
    hide Reachable, FeeInfoForPaidSpeedup;
    s := BuildsFirst(max);
    var r := First(false, ToDispatch, None, false);
    OneSpeedup(s, 1);
    OneWaits(s, r);
    s := SendsSpeedup(max, s, r);
    assert s.txs == S5().txs;
  }

  // ---------------------------------------------------------------- a replacement that pays less

  lemma FirstRates()
    ensures First(true, InMempool, None, false).feeInfo == FeeInfo(2180, 21, 19, 400)
  {}

  lemma LoneTip(r: CoordinatedTx)
    requires r.state.InMempool? && !r.IsBeingReplaced() && !r.Supersedes(r.txid)
    ensures LiveInMempool([r], 1) == [r] && !AnyWaiting([r]) && !r.HasLiveReplacement([r])
  {
    var all := [r];
    assert forall i :: 0 <= i < |all| ==> all[i] == r;
    assert LiveInMempool(all, 0) == [];
    assert LiveInMempool(all, 1) == LiveInMempool(all, 0) + [r];
  }

  /** The fee of an RBF that needs only 10 vbytes: the floor of twice the own size, lifted and doubled. */
  lemma SmallFee(max: nat)
    ensures ComputeSpeedupFee(Settings(max), 10, 10, 2.0, 20, true, 100) == (1000, false)
  {
    assert BaseFee(10, 10, 20, true, 100) == 500;
    DoubleBump(500);
    assert FeeCap(Settings(max), 10, 10) == 1990;
  }

  function SmallTx(): SpeedupTx {
    CpfpTx(4, FUND, 80_000, 10)
  }

  lemma SmallRequest(r: CoordinatedTx)
    requires r == First(true, InMempool, None, false)
    ensures StaleTip(Settings(1), [r], 1) == Some(r) && UseRbf(Settings(1), [r])
    ensures BoostRequest(Settings(1), [r], r, 1) == BuildRequest([10], true, 2.0, 20, 100)
  {
    FirstRates();
    LoneTip(r);
    assert [r][1..] == [];
    assert TotalVsize([r]) == 100;
    assert ChainFeeDiff(20, [r]) == 100;
  }

  /** An RBF built smaller than its predecessor, uncapped, in a reachable store: it pays less than half the fee of the
      transaction it replaces. */
  lemma SmallerReplacementUnderpays() returns (s: State, tip: CoordinatedTx, e: Event, t: Txid)
    ensures Settings(1).Valid() && Settings(1).baseFeeMultiplier >= 1.0 && Reachable(Settings(1), s)
    ensures Admissible(s, Settings(1), e) && e.BoostEvent?
    ensures StaleTip(Settings(1), SpeedupRecords(s), e.height) == Some(tip) && t !in s.txs
    ensures var s' := Step(s, Settings(1), e);
      && t in s'.txs && s'.txs[t].Supersedes(tip.txid)
      && (forall n :: n in s'.news && n.MaxFeeRateReached? ==> n in s.news)
      && 2 * s'.txs[t].feeInfo.fee < tip.feeInfo.fee
  {
    hide Reachable, FeeInfoForPaidSpeedup, BoostRequest, StaleTip, UseRbf, ComputeSpeedupFee, NetworkFeeRate, BuildLoop, FreshBuilder;
    hide LiveInMempool;
    s := FirstSent(1);
    tip := First(true, InMempool, None, false);
    var b := PlainBuilder(7, SmallTx(), 10);
    e, t := BoostEvent(b, None, false, 1), 7;
    OneSpeedup(s, 1);
    SmallRequest(tip);
    FirstRates();
    SmallFee(1);
    assert Sum([10]) == 10 by { assert [10][1..] == []; }
    assert NetworkFeeRate(Settings(1), None) == (1, None) by { PlainRate(1); }
    assert TotalAmount([FUND]) == 100_000 by { assert [FUND][1..] == []; }
    BuildsAtOnce(s, Settings(1), BuildRequest([10], true, 2.0, 20, 100), 7, SmallTx(), 10, [FUND], 1,
                 IsSpeedupDerived(s, FUND.op), 1000, false);
    assert FreshBuilder(s, b) by { FreshReplacement(s, b); }
    SmallFeeStored();
  }

  lemma PlainRate(max: nat)
    ensures NetworkFeeRate(Settings(max), None) == (1, None)
  {}

  lemma FreshReplacement(s: State, b: Builder)
    requires Is(s, S5()) && b == PlainBuilder(7, SmallTx(), 10)
    ensures FreshBuilder(s, b)
  {
    assert FreshTxid(s, 7);
  }

  lemma SmallFeeStored()
    ensures FeeInfoForPaidSpeedup(SmallTx(), 1000, 10).fee == 1000
  {}

  // ---------------------------------------------------------------- a capped fee above the cap

  lemma OvershootRate(tx: SpeedupTx)
    requires tx.vsize == 50
    ensures FeeInfoForPaidSpeedup(tx, 10990, 10).packageFeeRate == 183
  {}

  /** A capped CPFP sized for 100 vbytes that comes out with 50, in a reachable store: its stored package rate is 183
      where the maximum is 100. */
  lemma CapOvershot() returns (s: State, e: Event, t: Txid)
    ensures Settings(1).Valid() && Reachable(Settings(1), s) && Admissible(s, Settings(1), e) && e.CreateCpfpEvent?
    ensures var s' := Step(s, Settings(1), e);
            t !in s.txs && t in s'.txs && s'.txs[t].feeInfo.packageFeeRate == 183 > Settings(1).maxFeerate
  {
    hide Reachable, CreateCpfpBatch, ComputeSpeedupFee, FreshBuilder, FeeInfoForPaidSpeedup;
    s := Beginning(1);
    var cfg, tx := Settings(1), CpfpTx(4, FUND, 80_000, 50);
    var b, estimate := PlainBuilder(1, tx, 100), Some(200);
    e, t := CreateCpfpEvent(b, estimate, 0), 1;
    NoSpeedupsYet(s);
    FundPays(s);
    assert SlotFree(cfg, SpeedupRecords(s));
    assert NetworkFeeRate(cfg, estimate).0 == 100;
    assert Sum([10]) == 10 by { assert [10][1..] == []; }
    CpfpFee(1, 100);
    FreshFirst(s, b, tx, 100);
    CreatesCpfp(s, cfg, estimate, 4, 1, tx, 100, FUND, false, 10990, true);
    OvershootRate(tx);
  }

  // ---------------------------------------------------------------- a second CPFP on top of the first

  const CHANGE := Utxo(OutPoint(1, 0), 90_000)

  function SecondTx(weight: nat): SpeedupTx {
    Transaction([OutPoint(3, 0), CHANGE.op], [50_000], 100, weight)
  }

  /** A first CPFP over the parent 3, paid with the first one's change. */
  function SecondOf(weight: nat, sent: bool, state: TransactionState, guard: Option<BlockHeight>): CoordinatedTx {
    CoordinatedTx(2, SecondTx(weight), Speedup(CPFP([3], SpeedupContext([CHANGE], None, 2.0, [10], false))), state, 0, None, None,
                  if sent then Some(0) else None, guard, 0, FeeInfoForPaidSpeedup(SecondTx(weight), 200, 10))
  }

  function Second(sent: bool, state: TransactionState, guard: Option<BlockHeight>): CoordinatedTx {
    SecondOf(400, sent, state, guard)
  }

  lemma PlainSecond()
    ensures Second(false, ToDispatch, None) == SecondOf(400, false, ToDispatch, None)
  {}

  /** The store with the first CPFP only. */
  function One(c1: CoordinatedTx): State {
    S4().(txs := map[4 := Parent(4, true, InMempool, None), 1 := c1])
  }

  /** The store with both. */
  function Two(p4: CoordinatedTx, p3: CoordinatedTx, c1: CoordinatedTx, c2: CoordinatedTx): State {
    S4().(txs := map[4 := p4, 3 := p3, 1 := c1, 2 := c2], speedups := [1, 2], lineage := map[1 := [], 2 := []])
  }

  /** The first CPFP's change pays for the next one. */
  lemma ChangePays(s: State, c1: CoordinatedTx)
    requires SpeedupRecords(s) == [c1] && c1.state.OnNode() && c1 == First(true, c1.state, None, false)
    ensures ChosenFunding(s) == Some((CHANGE, true))
  {
    var all := [c1];
    assert forall i :: 0 <= i < |all| ==> !all[i].Supersedes(1);
    assert IsOpenTip(c1, all);
    assert LatestOpenTip(all, 1) == Some(c1);
    assert c1.ChangeUtxo() == CHANGE;
  }

  lemma FreshSecond(s: State, c1: CoordinatedTx, weight: nat)
    requires c1 == First(true, c1.state, None, false)
    requires s.txs == map[4 := Parent(4, true, InMempool, None), 1 := c1, 3 := Parent(3, true, InMempool, None)]
    requires s.lineage == map[1 := []] && s.funding == map[FUND.op := FundingData(FUND, true, false)]
    ensures FreshBuilder(s, PlainBuilder(2, SecondTx(weight), 100))
  {
    assert forall x, op :: Uses(s, x, op) ==> op == FUND.op;
    assert FreshTxid(s, 2);
  }

  lemma NoLift(c1: CoordinatedTx)
    requires c1 == First(true, c1.state, None, false)
    ensures ChainFeeDiff(1, LiveInMempool([c1], 1)) == 0
  {
    FirstRates();
    assert c1.feeInfo.packageFeeRate == 19;
    assert LiveInMempool([c1], 0) == [];
    var live := LiveInMempool([c1], 1);
    assert forall r :: r in live ==> r == c1;
    if live != [] {
      assert live[|live| - 1] in live;
    }
  }

  /** The store with the first CPFP and a new parent waiting for one. */
  function OneMore(c1: CoordinatedTx): State {
    One(c1).(txs := One(c1).txs[3 := Parent(3, true, InMempool, None)], psp := [3])
  }

  lemma SendsSecondParent(max: nat, s: State, c1: CoordinatedTx) returns (s': State)
    requires max > 0 && Reachable(Settings(max), s) && Is(s, One(c1))
    ensures Reachable(Settings(max), s') && Is(s', OneMore(c1))
  {
    hide Reachable, Parent;
    s' := Registers(Settings(max), s, 3);
    s' := SendsParent(max, s', 3);
    assert s'.txs == OneMore(c1).txs;
  }

  /** Step 6 over the new parent, paid with the first CPFP's change. */
  lemma SecondBuilt(max: nat, s: State, c1: CoordinatedTx, weight: nat)
    requires max > 0 && Is(s, OneMore(c1)) && c1.state.OnNode() && c1 == First(true, c1.state, None, false)
    requires SlotFree(Settings(max), [c1])
    ensures var s' := CreateCpfpBatch(s, Settings(max), PlainBuilder(2, SecondTx(weight), 100), None, 0);
            Is(s', Two(Parent(4, true, InMempool, None), Parent(3, true, InMempool, None), First(true, c1.state, None, true),
                       SecondOf(weight, false, ToDispatch, None)))
  {
    hide CreateCpfpBatch, ComputeSpeedupFee, FeeInfoForPaidSpeedup, SlotFree, ChosenFunding, LiveInMempool, ChainFeeDiff;
    var cfg, tx := Settings(max), SecondTx(weight);
    OneSpeedup(s, 1);
    ChangePays(s, c1);
    NoLift(c1);
    PlainRate(max);
    assert Sum([10]) == 10 by { assert [10][1..] == []; }
    CpfpFee(max, 1);
    CreatesCpfp(s, cfg, None, 3, 2, tx, 100, CHANGE, true, 200, false);
    ChangeSpent(s, c1, weight);
    assert [1] + [2] == [1, 2];
  }

  /** Marking the change and adding the new record gives the store with both. */
  lemma ChangeSpent(s: State, c1: CoordinatedTx, weight: nat)
    requires Is(s, OneMore(c1)) && c1 == First(true, c1.state, None, false)
    ensures var paid := SetSpent(s, CHANGE.op, true);
      && Is(paid, s.(txs := paid.txs))
      && paid.txs[2 := SecondOf(weight, false, ToDispatch, None)]
         == Two(Parent(4, true, InMempool, None), Parent(3, true, InMempool, None), First(true, c1.state, None, true),
                SecondOf(weight, false, ToDispatch, None)).txs
  {
    hide FeeInfoForPaidSpeedup;
    assert CHANGE.op !in s.funding;
    assert SetSpent(s, CHANGE.op, true).txs == s.txs[1 := First(true, c1.state, None, true)];
  }

  lemma BuildsSecond(max: nat, s: State, c1: CoordinatedTx, weight: nat) returns (s': State)
    requires max > 0 && Reachable(Settings(max), s) && Is(s, One(c1)) && c1.state.OnNode() && c1 == First(true, c1.state, None, false)
    requires SlotFree(Settings(max), [c1])
    ensures Reachable(Settings(max), s')
    ensures Is(s', Two(Parent(4, true, InMempool, None), Parent(3, true, InMempool, None), First(true, c1.state, None, true),
                       SecondOf(weight, false, ToDispatch, None)))
  {
    hide Reachable, CreateCpfpBatch, FreshBuilder, SlotFree, First, SecondOf, Parent;
    var b := PlainBuilder(2, SecondTx(weight), 100);
    s' := SendsSecondParent(max, s, c1);
    assert FreshBuilder(s', b) by { FreshAfterParent(s', c1, weight); }
    SecondBuilt(max, s', c1, weight);
    ReachableStep(Settings(max), s', CreateCpfpEvent(b, None, 0));
    s' := Step(s', Settings(max), CreateCpfpEvent(b, None, 0));
  }

  lemma FreshAfterParent(s: State, c1: CoordinatedTx, weight: nat)
    requires Is(s, OneMore(c1)) && c1 == First(true, c1.state, None, false)
    ensures FreshBuilder(s, PlainBuilder(2, SecondTx(weight), 100))
  {
    assert s.txs == map[4 := Parent(4, true, InMempool, None), 1 := c1, 3 := Parent(3, true, InMempool, None)];
    FreshSecond(s, c1, weight);
  }

  // ---------------------------------------------------------------- reviews of one and two speedups

  lemma ReviewOne(s: State, cfg: Config, status: Txid -> ChainStatus, r: CoordinatedTx)
    requires SpeedupRecords(s) == [r]
    ensures ReviewSpeedups(s, cfg, status, 0) == ReviewSpeedup(s, cfg, status, [r], r, 0)
  {
    hide ReviewSpeedup, SpeedupRecords;
    var next := ReviewSpeedup(s, cfg, status, [r], r, 0);
    assert ReviewSpeedupsFrom(next, cfg, status, [r], 1, 0) == next;
  }

  lemma ReviewBoth(s: State, cfg: Config, status: Txid -> ChainStatus, q: CoordinatedTx, r: CoordinatedTx)
    requires SpeedupRecords(s) == [q, r]
    ensures ReviewSpeedups(s, cfg, status, 0)
            == ReviewSpeedup(ReviewSpeedup(s, cfg, status, [q, r], q, 0), cfg, status, [q, r], r, 0)
  {
    hide ReviewSpeedup, SpeedupRecords;
    var all := [q, r];
    var next := ReviewSpeedup(s, cfg, status, all, q, 0);
    var last := ReviewSpeedup(next, cfg, status, all, r, 0);
    assert ReviewSpeedupsFrom(last, cfg, status, all, 2, 0) == last;
    assert ReviewSpeedupsFrom(next, cfg, status, all, 1, 0) == last;
  }

  // ---------------------------------------------------------------- a reorg that overfills the slots

  function Mining(t: Txid): Txid -> ChainStatus {
    (x: Txid) => if x == t then Mined else Unclear
  }

  function Returning(t: Txid): Txid -> ChainStatus {
    (x: Txid) => if x == t then SeenInMempool else Unclear
  }

  lemma FirstConfirms(max: nat) returns (s: State)
    requires max > 0
    ensures Reachable(Settings(max), s) && Is(s, One(First(true, Confirmed, None, false)))
  {
    hide Reachable, FeeInfoForPaidSpeedup;
    s := FirstSent(max);
    var cfg, e := Settings(max), ReviewSpeedupsEvent(Mining(1), 0);
    OneSpeedup(s, 1);
    ReviewOne(s, cfg, Mining(1), First(true, InMempool, None, false));
    ReachableStep(cfg, s, e);
    s := Step(s, cfg, e);
    assert s.txs == One(First(true, Confirmed, None, false)).txs;
  }

  lemma ConfirmedFreesSlot(r: CoordinatedTx)
    requires r.state.Confirmed?
    ensures SlotFree(Settings(1), [r])
  {
    assert LiveInMempool([r], 0) == [];
    assert LiveInMempool([r], 1) == [];
    var all := [r];
    assert forall i :: 0 <= i < |all| ==> all[i] == r;
  }

  lemma NothingReplaced(s: State, t: Txid)
    requires forall x :: x in s.txs ==> !s.txs[x].IsRBF() && !s.txs[x].IsBeingReplaced()
    ensures !Masked(s, t)
  {}

  /** The store before the reorg: one confirmed CPFP, and a waiting one in the only slot. */
  lemma SlotsBefore(s: State, status: Txid -> ChainStatus)
    requires Is(s, Two(Parent(4, true, InMempool, None), Parent(3, true, InMempool, None), First(true, Confirmed, None, true),
                       Second(false, ToDispatch, None)))
    requires status == Returning(1)
    ensures Occupied(s) == {2} && Staying(s, status) == {2} && TakenBack(s, status) == {1}
  {
    hide FeeInfoForPaidSpeedup, Masked, SpeedupRecords;
    NothingReplaced(s, 1);
    NothingReplaced(s, 2);
    assert HoldsAfter(s, status, 1) && HoldsAfter(s, status, 2);
    assert forall t :: t in s.speedups <==> t == 1 || t == 2;
  }

  /** With a single slot, a reorg that returns the confirmed CPFP to the mempool while the next one waits takes two: the
      maximum and the one confirmation lost. */
  lemma ReorgOverfillsSlots() returns (s: State, e: Event)
    ensures Settings(1).Valid() && Settings(1).maxUnconfirmedSpeedups == 1 && Reachable(Settings(1), s)
    ensures e.ReviewSpeedupsEvent? && Admissible(s, Settings(1), e)
    ensures |Occupied(s)| == 1 && |TakenBack(s, e.status)| == 1 && |Occupied(Step(s, Settings(1), e))| == 2
  {
    hide Reachable, First, Second, Parent, SlotFree, TakenBack, Staying, Occupied, Inv, ReviewSpeedups;
    var c1 := First(true, Confirmed, None, false);
    s := FirstConfirms(1);
    assert c1.state.Confirmed? && c1.state == Confirmed by { FirstState(Confirmed); }
    ConfirmedFreesSlot(c1);
    s := BuildsSecond(1, s, c1, 400);
    PlainSecond();
    e := ReviewSpeedupsEvent(Returning(1), 0);
    SlotsBefore(s, e.status);
    ReachableInv(Settings(1), s);
    ReviewSlotsExactly(s, Settings(1), e.status, 0);
  }

  lemma FirstState(state: TransactionState)
    ensures First(true, state, None, false).state == state
  {}

  // ---------------------------------------------------------------- parents that fail under their CPFPs

  function Losing(t: Txid): Txid -> ChainStatus {
    (x: Txid) => if x == t then NotFound else Unclear
  }

  lemma NothingStale(s: State)
    requires forall t :: t in s.txs && s.txs[t].settledBlockHeight.Some? ==> s.txs[t].settledBlockHeight.value == 0
    ensures EvictStaleTxs(s, 0, 100) == s
  {
    assert StaleTxs(s, 0, 100) == {};
    KeepsAll(s.speedups);
    assert s.txs - {} == s.txs && s.news + EvictionNews({}) == s.news;
  }

  lemma {:induction false} KeepsAll(ts: seq<Txid>)
    ensures Excluding(ts, {}) == ts
  {
    if ts != [] {
      KeepsAll(ts[1..]);
    }
  }

  /** Step 1 finds one client transaction gone. */
  lemma ReviewsOne(s: State, max: nat, t: Txid)
    requires t in s.txs && s.txs[t] == Parent(t, true, InMempool, None)
    requires forall t :: t in s.txs && s.txs[t].settledBlockHeight.Some? ==> s.txs[t].settledBlockHeight.value == 0
    ensures ReviewActive(s, Settings(max), Losing(t), [t], 0) == Put(s, t, Parent(t, true, ToDispatch, Some(6)))
  {
    hide EvictStaleTxs;
    NothingStale(s);
    var r := s.txs[t];
    assert [t][1..] == [] && [r][1..] == [];
    assert ToReview(s, [t]) == [r];
    var next := ReviewTransaction(s, Settings(max), Losing(t), r, 0);
    assert ReviewTransactions(next, Settings(max), Losing(t), [], 0) == next;
    assert ReviewTransactions(s, Settings(max), Losing(t), [r], 0) == next;
  }

  lemma NoVictimsHere(s: State, t: Txid)
    requires Pending(s) == {}
    ensures Victims(s, SpeedupRecords(s), t) == []
  {
    var ds := Victims(s, SpeedupRecords(s), t);
    if ds != [] {
      NoMember(s, t, ds[0]);
    }
  }

  lemma NoMember(s: State, t: Txid, d: CoordinatedTx)
    requires Pending(s) == {}
    ensures d !in Victims(s, SpeedupRecords(s), t)
  {}

  /** With no speedup waiting, a client transaction fails alone. */
  lemma FailsAlone(s: State, r: CoordinatedTx)
    requires Pending(s) == {} && !r.kind.Speedup? && r.txid in s.txs && s.txs[r.txid] == r && r.state.ToDispatch?
    ensures Is(FailAndCascade(s, r, 0, false), Put(s, r.txid, r.(state := Failed, settledBlockHeight := Some(0))))
  {
    var settled := SettleFailedDispatch(s, r, 0, false);
    SettleShrinksPending(s, r, 0, false);
    NoVictimsHere(settled, r.txid);
    hide SpeedupRecords;
    assert r.Claimed() == [];
  }

  /** A parent is lost, re-queued and settled Failed when the node refuses it. */
  lemma LosesParent(max: nat, s: State, t: Txid) returns (s': State)
    requires Reachable(Settings(max), s) && t in s.txs && s.txs[t] == Parent(t, true, InMempool, None) && 90 + t !in s.txs
    requires forall t :: t in s.txs && s.txs[t].settledBlockHeight.Some? ==> s.txs[t].settledBlockHeight.value == 0
    requires Pending(s) == {}
    ensures Reachable(Settings(max), s') && Is(s', s.(txs := s.txs[t := Parent(t, true, Failed, Some(6))]))
  {
    hide Reachable, FailAndCascade, ReviewActive, SendOne;
    var cfg := Settings(max);
    ReviewsOne(s, max, t);
    ReachableStep(cfg, s, ReviewClientsEvent(Losing(t), [t], 0));
    var lost := Put(s, t, Parent(t, true, ToDispatch, Some(6)));
    var node := PlainNode(false, true);
    SendPlain(lost, false, true, lost.txs[t]);
    OneClient(lost, max, node, t);
    assert Pending(lost) == {};
    FailsAlone(lost, lost.txs[t]);
    ReachableStep(cfg, lost, DispatchClientsEvent(node, [t], true, None, 0));
    s' := Step(lost, cfg, DispatchClientsEvent(node, [t], true, None, 0));
    RefusedFails(lost, max, t);
    assert s.txs[t := Parent(t, true, ToDispatch, Some(6))][t := Parent(t, true, Failed, Some(6))]
           == s.txs[t := Parent(t, true, Failed, Some(6))];
  }

  /** Refused with all inputs intact, on the last attempt: settled Failed. */
  lemma RefusedFails(s: State, max: nat, t: Txid)
    requires t in s.txs && s.txs[t] == Parent(t, true, ToDispatch, Some(6))
    ensures HandleDispatchResult(s, Settings(max), PlainNode(false, true), Dispatch(s.txs[t], SendError), 0,
                                 ComputeFeeForTx(s.txs[t].tx, 1))
            == FailAndCascade(s, s.txs[t], 0, false)
  {
    hide FailAndCascade;
  }

  function LosingAll(): Txid -> ChainStatus {
    (x: Txid) => NotFound
  }

  lemma SecondGoes(s: State)
    requires Is(s, Two(Parent(4, true, InMempool, None), Parent(3, true, InMempool, None), First(true, InMempool, None, true),
                       Second(false, ToDispatch, None)))
    ensures var r := Second(false, ToDispatch, None);
      && SpeedupBatch(s, true) == [r] && !Malformed(Settings(2), r) && !r.IsRBF()
      && (forall i :: 0 <= i < |r.tx.inputs| ==>
            !(r.tx.inputs[i].txid in s.txs && s.txs[r.tx.inputs[i].txid].state.Failed?))
      && s.txs[r.txid := r.(state := InMempool, broadcastBlockHeight := Some(0), failGuardUntil := None)]
         == Two(Parent(4, true, InMempool, None), Parent(3, true, InMempool, None), First(true, InMempool, None, true),
                Second(true, InMempool, None)).txs
  {
    hide FeeInfoForPaidSpeedup, SpeedupRecords, SpeedupBatch;
    TwoSpeedups(s, 1, 2);
    SecondWaits(s, First(true, InMempool, None, true), Second(false, ToDispatch, None));
  }

  lemma LoneSlot()
    ensures SlotFree(Settings(2), [First(true, InMempool, None, false)])
  {
    LoneTip(First(true, InMempool, None, false));
  }

  /** Both CPFPs are in the mempool, funded one by the other. */
  lemma BothSent() returns (s: State)
    ensures Reachable(Settings(2), s)
    ensures Is(s, Two(Parent(4, true, InMempool, None), Parent(3, true, InMempool, None), First(true, InMempool, None, true),
                      Second(true, InMempool, None)))
  {
    hide Reachable, First, Second, Parent, SlotFree, SpeedupBatch, Malformed;
    s := FirstSent(2);
    var c1 := First(true, InMempool, None, false);
    LoneSlot();
    assert c1.state == InMempool by { FirstState(InMempool); }
    s := BuildsSecond(2, s, c1, 400);
    PlainSecond();
    SecondGoes(s);
    s := SendsSpeedup(2, s, Second(false, ToDispatch, None));
  }

  lemma NothingPends(s: State)
    requires forall t :: t in s.txs ==> !s.txs[t].kind.Speedup? || s.txs[t].state.InMempool?
    ensures Pending(s) == {}
  {}

  /** Parent 4, and parent 3 too if asked, has settled Failed under the CPFPs. */
  function ThirdParent(alsoThird: bool): CoordinatedTx {
    if alsoThird then Parent(3, true, Failed, Some(6)) else Parent(3, true, InMempool, None)
  }

  lemma FourthMayFail(s: State)
    requires Is(s, Two(Parent(4, true, InMempool, None), Parent(3, true, InMempool, None), First(true, InMempool, None, true),
                       Second(true, InMempool, None)))
    ensures s.txs[4] == Parent(4, true, InMempool, None) && 94 !in s.txs && Pending(s) == {}
    ensures forall t :: t in s.txs && s.txs[t].settledBlockHeight.Some? ==> s.txs[t].settledBlockHeight.value == 0
    ensures s.txs[4 := Parent(4, true, Failed, Some(6))] == Two(Parent(4, true, Failed, Some(6)), ThirdParent(false),
                                                                First(true, InMempool, None, true), Second(true, InMempool, None)).txs
  {
    hide FeeInfoForPaidSpeedup;
    NothingPends(s);
  }

  lemma ThirdMayFail(s: State)
    requires Is(s, Two(Parent(4, true, Failed, Some(6)), ThirdParent(false), First(true, InMempool, None, true),
                       Second(true, InMempool, None)))
    ensures s.txs[3] == Parent(3, true, InMempool, None) && 93 !in s.txs && Pending(s) == {}
    ensures forall t :: t in s.txs && s.txs[t].settledBlockHeight.Some? ==> s.txs[t].settledBlockHeight.value == 0
    ensures s.txs[3 := Parent(3, true, Failed, Some(6))] == Two(Parent(4, true, Failed, Some(6)), ThirdParent(true),
                                                                First(true, InMempool, None, true), Second(true, InMempool, None)).txs
  {
    hide FeeInfoForPaidSpeedup;
    NothingPends(s);
  }

  lemma ParentsFail(alsoThird: bool) returns (s: State)
    ensures Reachable(Settings(2), s)
    ensures Is(s, Two(Parent(4, true, Failed, Some(6)), ThirdParent(alsoThird), First(true, InMempool, None, true),
                      Second(true, InMempool, None)))
  {
    hide Reachable, First, Second, Parent, ThirdParent, Pending;
    s := BothSent();
    FourthMayFail(s);
    s := LosesParent(2, s, 4);
    if alsoThird {
      ThirdMayFail(s);
      s := LosesParent(2, s, 3);
    }
  }

  function Troubled(alsoThird: bool): State {
    Two(Parent(4, true, Failed, Some(6)), ThirdParent(alsoThird), First(true, ToDispatch, Some(6), true),
        Second(true, ToDispatch, Some(6)))
  }

  /** Neither CPFP is found any more: both are re-queued under guard. */
  lemma BothLost(s: State, alsoThird: bool)
    requires Is(s, Two(Parent(4, true, Failed, Some(6)), ThirdParent(alsoThird), First(true, InMempool, None, true),
                       Second(true, InMempool, None)))
    ensures Is(ReviewSpeedups(s, Settings(2), LosingAll(), 0), Troubled(alsoThird))
  {
    hide FeeInfoForPaidSpeedup, ReviewSpeedups, SpeedupRecords, Parent;
    var c1, c2 := First(true, InMempool, None, true), Second(true, InMempool, None);
    TwoSpeedups(s, 1, 2);
    ReviewBoth(s, Settings(2), LosingAll(), c1, c2);
    var all := [c1, c2];
    assert forall i :: 0 <= i < |all| ==> !all[i].IsRBF();
    assert !c1.HasLiveReplacement(all) && !c2.HasLiveReplacement(all);
    var next := ReviewSpeedup(s, Settings(2), LosingAll(), all, c1, 0);
    assert next == Put(s, 1, First(true, ToDispatch, Some(6), true));
    assert ReviewSpeedup(next, Settings(2), LosingAll(), all, c2, 0) == Put(next, 2, Second(true, ToDispatch, Some(6)));
    assert s.txs[1 := First(true, ToDispatch, Some(6), true)][2 := Second(true, ToDispatch, Some(6))] == Troubled(alsoThird).txs;
  }

  lemma InTrouble(alsoThird: bool) returns (s: State)
    ensures Reachable(Settings(2), s) && Is(s, Troubled(alsoThird))
  {
    hide Reachable, ReviewSpeedups, Two, First, Second, Parent;
    s := ParentsFail(alsoThird);
    BothLost(s, alsoThird);
    ReachableStep(Settings(2), s, ReviewSpeedupsEvent(LosingAll(), 0));
    s := Step(s, Settings(2), ReviewSpeedupsEvent(LosingAll(), 0));
  }

  /** The batch of both, and what the node makes of it: the first has a Failed parent; the second one too, or its inputs are
      gone. */
  lemma TroubledOutcomes(s: State, alsoThird: bool, unspent: bool)
    requires Is(s, Troubled(alsoThird))
    ensures var c1, c2 := First(true, ToDispatch, Some(6), true), Second(true, ToDispatch, Some(6));
            SpeedupOutcomes(s, Settings(2), PlainNode(false, unspent), true)
            == [Dispatch(c1, ParentFailed(4)), Dispatch(c2, if alsoThird then ParentFailed(3) else SendError)]
  {
    hide FeeInfoForPaidSpeedup, SpeedupRecords, SendOne, SpeedupBatch, DispatchAll;
    var cfg, node := Settings(2), PlainNode(false, unspent);
    var c1, c2 := First(true, ToDispatch, Some(6), true), Second(true, ToDispatch, Some(6));
    TwoSpeedups(s, 1, 2);
    BothWait(s, c1, c2);
    SendFirst(s, alsoThird, node);
    SendSecond(s, alsoThird, unspent);
    OutcomesOfTwo(s, cfg, node, c1, c2);
  }

  lemma OutcomesOfTwo(s: State, cfg: Config, node: Node, q: CoordinatedTx, r: CoordinatedTx)
    requires !Malformed(cfg, q) && !Malformed(cfg, r) && SendOne(s, node, q).Some? && SendOne(s, node, r).Some?
    ensures DispatchAll(s, cfg, node, [q, r])
            == [Dispatch(q, SendOne(s, node, q).value), Dispatch(r, SendOne(s, node, r).value)]
  {
    hide SendOne, Malformed;
    assert [q, r][1..] == [r] && [r][1..] == [];
    assert FatalResults(cfg, []) == [] && SendResults(s, cfg, node, []) == [];
    assert FatalResults(cfg, [r]) == [];
    assert FatalResults(cfg, [q, r]) == [];
    assert SendResults(s, cfg, node, [r]) == [Dispatch(r, SendOne(s, node, r).value)];
  }

  lemma BothWait(s: State, q: CoordinatedTx, r: CoordinatedTx)
    requires SpeedupRecords(s) == [q, r] && q.state.ToDispatch? && r.state.ToDispatch?
    ensures SpeedupBatch(s, true) == [q, r]
  {
    assert [q, r][1..] == [r] && [r][1..] == [];
    assert WaitingRecords([r]) == [r] && WaitingRecords([q, r]) == [q] + [r];
    assert RetryFilter([r], true) == [r];
    assert RetryFilter([q, r][1..], true) == [r];
    assert RetryFilter([q, r], true) == [q] + [r];
  }

  lemma SendFirst(s: State, alsoThird: bool, node: Node)
    requires Is(s, Troubled(alsoThird))
    ensures SendOne(s, node, First(true, ToDispatch, Some(6), true)) == Some(ParentFailed(4))
  {
    hide FeeInfoForPaidSpeedup;
  }

  lemma SendSecond(s: State, alsoThird: bool, unspent: bool)
    requires Is(s, Troubled(alsoThird))
    ensures SendOne(s, PlainNode(false, unspent), Second(true, ToDispatch, Some(6)))
            == Some(if alsoThird then ParentFailed(3) else SendError)
  {
    hide FeeInfoForPaidSpeedup;
    var inputs := Second(true, ToDispatch, Some(6)).tx.inputs;
    assert inputs == [OutPoint(3, 0), OutPoint(1, 0)];
    if !alsoThird {
      SendPlain(s, false, unspent, Second(true, ToDispatch, Some(6)));
    }
  }

  /** The second CPFP falls with the first: the first's change is its funding. */
  lemma SecondReached(s: State, alsoThird: bool)
    requires Is(s, Troubled(alsoThird))
    ensures 2 in Pending(s) && Reaches(s, 1, 2) && 3 in s.txs[2].Parents()
  {
    hide FeeInfoForPaidSpeedup;
    assert s.txs[2].FundingInputs() == [CHANGE];
    assert s.txs[2].Parents() == [3];
    ReachFirst(s, 1, 2);
  }

  lemma TroubledAdmissible(s: State, alsoThird: bool, unspent: bool)
    requires Is(s, Troubled(alsoThird))
    ensures Admissible(s, Settings(2), DispatchSpeedupsEvent(PlainNode(false, unspent), true, 0))
  {
    hide FeeInfoForPaidSpeedup, SpeedupOutcomes, Reaches, FailsRoot;
    TroubledOutcomes(s, alsoThird, unspent);
  }

  // ---------------------------------------------------------------- a guarded speedup that falls

  lemma SecondConsumed(s: State)
    requires Is(s, Troubled(false))
    ensures InputConsumed(s, Settings(2), PlainNode(false, false), Second(true, ToDispatch, Some(6)))
  {
    hide FeeInfoForPaidSpeedup, SendOne;
    var c2 := Second(true, ToDispatch, Some(6));
    SendSecond(s, false, false);
    var us := c2.FundingInputs();
    assert us == [CHANGE] && us[0].op == CHANGE.op;
    assert FundingGone(PlainNode(false, false), c2);
    SendIs(s, Settings(2), PlainNode(false, false), c2, SendError);
  }

  /** A guarded CPFP six blocks before its deadline, whose own verdict is an input-consumed one, is settled Failed because
      the speedup that funds it fails in the same batch. */
  lemma GuardedSpeedupFalls() returns (s: State, e: Event, t: Txid)
    ensures Settings(2).Valid() && Reachable(Settings(2), s) && Admissible(s, Settings(2), e) && e.DispatchSpeedupsEvent?
    ensures IsWaiting(s, t) && Guarded(s.txs[t], e.height) && InputConsumed(s, Settings(2), e.node, s.txs[t])
    ensures HasOutcome(Outcomes(s, Settings(2), e), t)
    ensures var s' := Step(s, Settings(2), e);
            t in s'.txs && s'.txs[t].state.Failed? && s'.txs[t].failGuardUntil == s.txs[t].failGuardUntil
  {
    hide Reachable, Inv, FeeInfoForPaidSpeedup, SpeedupOutcomes, FailsRoot, Reaches, InputConsumed, HasOutcome;
    s := InTrouble(false);
    e, t := DispatchSpeedupsEvent(PlainNode(false, false), true, 0), 2;
    assert s.txs[2] == Second(true, ToDispatch, Some(6));
    TroubledAdmissible(s, false, false);
    TroubledOutcomes(s, false, false);
    SecondConsumed(s);
    SecondReached(s, false);
    ReachableInv(Settings(2), s);
    var ds := Outcomes(s, Settings(2), e);
    assert FailsRoot(Settings(2), e.node, ds[0], 0) by { ParentFailedFails(Settings(2), e.node, ds[0], 0); }
    assert TakenDown(s, Settings(2), e.node, ds, 0, 2) by { assert ds[0].tx.txid == 1; }
    assert HasOutcome(ds, 2) by { SecondHasOutcome(ds); }
    GuardedVerdict(s, Settings(2), e, 2);
  }

  lemma ParentFailedFails(cfg: Config, node: Node, d: Dispatch, height: BlockHeight)
    requires d.outcome.ParentFailed?
    ensures FailsRoot(cfg, node, d, height)
  {}

  lemma SecondHasOutcome(ds: seq<Dispatch>)
    requires |ds| == 2 && ds[1].tx.txid == 2
    ensures HasOutcome(ds, 2)
  {}

  // ---------------------------------------------------------------- a Failed parent that is queued again

  lemma TwoOutcomes(s: State, cfg: Config, node: Node, d1: Dispatch, d2: Dispatch, fee: CoordinatedTx -> FeeInfo)
    ensures HandleAll(s, cfg, node, [d1, d2], 0, fee)
            == HandleDispatchResult(HandleDispatchResult(s, cfg, node, d1, 0, fee(d1.tx)), cfg, node, d2, 0, fee(d2.tx))
  {
    hide HandleDispatchResult;
    assert [d1, d2][1..] == [d2];
    OneOutcome(HandleDispatchResult(s, cfg, node, d1, 0, fee(d1.tx)), cfg, node, d2, fee);
  }

  lemma RebuildKeys(s: State, tx: CoordinatedTx)
    requires KeysOk(s)
    ensures KeysOk(RebuildSurvivors(s, tx, 0))
  {
    hide KeysOk, FailAndCascade;
    FailAndCascadeEvolves(s, tx, 0, false);
    EvolvesKeepsKeys(s, FailAndCascade(s, tx, 0, false));
    SameTxsKeys(FailAndCascade(s, tx, 0, false), RebuildSurvivors(s, tx, 0));
  }

  lemma SameTxsKeys(s: State, s': State)
    requires KeysOk(s) && s'.txs == s.txs
    ensures KeysOk(s')
  {}

  /** Both outcomes rebuild their survivors; the first one's cascade re-queues the Failed parent of the second. */
  lemma ThirdQueued(s: State)
    requires Is(s, Troubled(true)) && KeysOk(s)
    ensures var c1, c2 := First(true, ToDispatch, Some(6), true), Second(true, ToDispatch, Some(6));
            3 in RebuildSurvivors(RebuildSurvivors(s, c1, 0), c2, 0).psp
  {
    hide FeeInfoForPaidSpeedup, KeysOk, RebuildSurvivors, Reaches, Survives;
    var c1, c2 := First(true, ToDispatch, Some(6), true), Second(true, ToDispatch, Some(6));
    SecondReached(s, true);
    assert CoveredByVictim(s, 1, 3) && Needs(s, 3) && s.txs[3].state.Failed? && IsSpeedup(s, 1);
    FailedParentQueued(s, c1, 0, 3);
    RebuildKeys(s, c1);
    hide CoveredByVictim;
    SurvivorsQueued(RebuildSurvivors(s, c1, 0), c2, 0, 3);
  }

  /** Step 6 of the same tick takes every Failed parent off the list again. */
  lemma FailedParentsArePruned(s: State, cfg: Config, b: Builder, estimate: Option<nat>, height: BlockHeight, t: Txid)
    requires Inv(s) && cfg.Valid() && t in s.txs && s.txs[t].state.Failed?
    ensures t !in CreateCpfpBatch(s, cfg, b, estimate, height).psp
  {
    var pruned := PrunePending(s);
    assert t !in pruned.psp;
    RemovePendingKeepsInv(s, set t | t in s.psp && Prunable(s, t));
    hide Inv, PrunePending, PendingParents, NetworkFeeRate, BuildCpfp, SlotFree, FirstBatch, ParentVsizes, CpfpRequest, Txids;
    var (rate, news) := NetworkFeeRate(cfg, estimate);
    NoteRateKeepsInv(pruned, news);
    var noted := NoteRate(pruned, news);
    forall q: BuildRequest, covered ensures t !in BuildCpfp(noted, cfg, b, q, covered, height).psp {
      BuildKeepsOff(noted, cfg, b, q, covered, height, t);
    }
  }

  lemma BuildKeepsOff(s: State, cfg: Config, b: Builder, q: BuildRequest, covered: seq<Txid>, height: BlockHeight, t: Txid)
    requires Inv(s) && cfg.Valid() && t !in s.psp
    ensures t !in BuildCpfp(s, cfg, b, q, covered, height).psp
  {
    hide Inv, BuildSpeedup, NewSpeedup;
    BuildKeepsPending(s, cfg, b, q);
  }

  lemma BuildKeepsPending(s: State, cfg: Config, b: Builder, q: BuildRequest)
    requires Inv(s) && cfg.Valid()
    ensures BuildSpeedup(s, cfg, b, q, None).0.psp == s.psp
  {
    hide Inv, KeysOk, ListOk, QueueOk, LineageOk, BuildSpeedup, ChosenFunding, BuildLaws.Claim;
    InvParts(s);
    BuildLaws.BuildSpeedupContract(s, cfg, b, q, None);
    forall us ensures BuildLaws.Claim(s, us).psp == s.psp {
      BuildLaws.ClaimKeepsInv(s, us);
    }
  }

  /** A Failed parent that is newly queued, in a reachable store: the first CPFP fails with its own parent, its cascade takes
      the second one down, and the re-queue of the second one's parents does not see that they have failed. */
  lemma FailedParentIsQueued() returns (s: State, e: Event, p: Txid)
    ensures Settings(2).Valid() && Reachable(Settings(2), s) && Admissible(s, Settings(2), e) && e.DispatchSpeedupsEvent?
    ensures p in s.txs && s.txs[p].kind.NeedsSpeedup? && s.txs[p].state.Failed? && p !in s.psp
    ensures var s' := Step(s, Settings(2), e);
      && p in s'.txs && s'.txs[p].state.Failed? && p in s'.psp
      && forall b, estimate, height :: p !in CreateCpfpBatch(s', Settings(2), b, estimate, height).psp
  {
    hide Reachable, Inv, CreateCpfpBatch, First, Second, Parent, DispatchPendingSpeedups, DispatchMove, KeysOk;
    var cfg := Settings(2);
    s := InTrouble(true);
    e, p := DispatchSpeedupsEvent(PlainNode(false, true), true, 0), 3;
    var s' := Step(s, cfg, e);
    TroubledAdmissible(s, true, true);
    ReachableInv(cfg, s);
    InvKeys(s);
    ThirdQueuedByStep(s);
    StepKeepsInv(s, cfg, e);
    ThirdIsFailed(s);
    DispatchEventMoves(s, cfg, e, 3);
    assert 3 in s'.txs && s'.txs[3].state.Failed? by { FailedStays(s.txs[3], s'.txs[3]); }
    forall b, estimate, height ensures 3 !in CreateCpfpBatch(s', cfg, b, estimate, height).psp {
      FailedParentsArePruned(s', cfg, b, estimate, height, 3);
    }
  }

  lemma FailedStays(a: CoordinatedTx, b: CoordinatedTx)
    requires DispatchMove(a, b) && a.state.Failed?
    ensures b.state.Failed?
  {}

  lemma ThirdIsFailed(s: State)
    requires Is(s, Troubled(true))
    ensures 3 in s.txs && s.txs[3].kind.NeedsSpeedup? && s.txs[3].state.Failed? && s.psp == []
  {
    hide FeeInfoForPaidSpeedup;
  }

  lemma StepHandles(s: State, cfg: Config, node: Node)
    ensures DispatchPendingSpeedups(s, cfg, node, true, 0) == HandleAll(s, cfg, node, SpeedupOutcomes(s, cfg, node, true), 0, KeepFee)
  {
    hide HandleAll, DispatchAll, SpeedupBatch;
  }

  lemma ChildRebuilds(s: State, cfg: Config, node: Node, c: CoordinatedTx, p: Txid, fee: FeeInfo)
    requires c.IsFirstCpfp()
    ensures HandleDispatchResult(s, cfg, node, Dispatch(c, ParentFailed(p)), 0, fee) == RebuildSurvivors(s, c, 0)
  {
    hide RebuildSurvivors;
  }

  lemma BothAreFirst()
    ensures First(true, ToDispatch, Some(6), true).IsFirstCpfp() && Second(true, ToDispatch, Some(6)).IsFirstCpfp()
  {}

  lemma ThirdQueuedByStep(s: State)
    requires Is(s, Troubled(true)) && KeysOk(s)
    ensures 3 in DispatchPendingSpeedups(s, Settings(2), PlainNode(false, true), true, 0).psp
  {
    hide KeysOk, First, Second, Troubled, SpeedupOutcomes, RebuildSurvivors, HandleAll, HandleDispatchResult, DispatchPendingSpeedups;
    var cfg, node := Settings(2), PlainNode(false, true);
    var c1, c2 := First(true, ToDispatch, Some(6), true), Second(true, ToDispatch, Some(6));
    BothAreFirst();
    TroubledOutcomes(s, true, true);
    StepHandles(s, cfg, node);
    TwoOutcomes(s, cfg, node, Dispatch(c1, ParentFailed(4)), Dispatch(c2, ParentFailed(3)), KeepFee);
    ChildRebuilds(s, cfg, node, c1, 4, KeepFee(c1));
    ChildRebuilds(RebuildSurvivors(s, c1, 0), cfg, node, c2, 3, KeepFee(c2));
    ThirdQueued(s);
  }

  // ---------------------------------------------------------------- a release that is undone

  /** Both wait: the first was lost, the second was never sent and is over the weight limit. */
  function TooHeavy(): State {
    Two(Parent(4, true, InMempool, None), Parent(3, true, InMempool, None), First(true, ToDispatch, Some(6), true),
        SecondOf(5000, false, ToDispatch, None))
  }

  lemma FirstLost(s: State)
    requires Is(s, Two(Parent(4, true, InMempool, None), Parent(3, true, InMempool, None), First(true, InMempool, None, true),
                       SecondOf(5000, false, ToDispatch, None)))
    ensures Is(ReviewSpeedups(s, Settings(2), LosingAll(), 0), TooHeavy())
  {
    hide FeeInfoForPaidSpeedup, ReviewSpeedups, SpeedupRecords, Parent;
    var c1, c2 := First(true, InMempool, None, true), SecondOf(5000, false, ToDispatch, None);
    TwoSpeedups(s, 1, 2);
    ReviewBoth(s, Settings(2), LosingAll(), c1, c2);
    var all := [c1, c2];
    assert forall i :: 0 <= i < |all| ==> !all[i].IsRBF();
    assert !c1.HasLiveReplacement(all);
    var next := ReviewSpeedup(s, Settings(2), LosingAll(), all, c1, 0);
    assert next == Put(s, 1, First(true, ToDispatch, Some(6), true));
    assert s.txs[1 := First(true, ToDispatch, Some(6), true)] == TooHeavy().txs;
  }

  lemma HeavyWaits() returns (s: State)
    ensures Reachable(Settings(2), s) && Is(s, TooHeavy())
  {
    hide Reachable, First, SecondOf, Parent, SlotFree, ReviewSpeedups, TooHeavy;
    s := FirstSent(2);
    var c1 := First(true, InMempool, None, false);
    LoneSlot();
    assert c1.state == InMempool by { FirstState(InMempool); }
    s := BuildsSecond(2, s, c1, 5000);
    FirstLost(s);
    ReachableStep(Settings(2), s, ReviewSpeedupsEvent(LosingAll(), 0));
    s := Step(s, Settings(2), ReviewSpeedupsEvent(LosingAll(), 0));
  }

  lemma HeavySend(s: State)
    requires Is(s, TooHeavy())
    ensures var c1, c2 := First(true, ToDispatch, Some(6), true), SecondOf(5000, false, ToDispatch, None);
      && SpeedupRecords(s) == [c1, c2] && c1.state.ToDispatch? && c2.state.ToDispatch?
      && !Malformed(Settings(2), c1) && Malformed(Settings(2), c2)
      && SendOne(s, PlainNode(true, true), c1) == Some(Success)
  {
    hide FeeInfoForPaidSpeedup, SpeedupRecords;
    var c1 := First(true, ToDispatch, Some(6), true);
    TwoSpeedups(s, 1, 2);
    assert c1.tx.inputs == [OutPoint(4, 0), OutPoint(9, 0)];
    SendPlain(s, true, true, c1);
  }

  /** The weight is checked for the whole batch before anything is sent. */
  lemma HeavyOutcomes(s: State)
    requires Is(s, TooHeavy())
    ensures var c1, c2 := First(true, ToDispatch, Some(6), true), SecondOf(5000, false, ToDispatch, None);
            SpeedupOutcomes(s, Settings(2), PlainNode(true, true), true) == [Dispatch(c2, Fatal), Dispatch(c1, Success)]
  {
    hide FeeInfoForPaidSpeedup, SpeedupRecords, SendOne, SpeedupBatch, Malformed, TooHeavy, First, SecondOf;
    var cfg, node := Settings(2), PlainNode(true, true);
    var q, r := First(true, ToDispatch, Some(6), true), SecondOf(5000, false, ToDispatch, None);
    HeavySend(s);
    BothWait(s, q, r);
    assert [q, r][1..] == [r] && [r][1..] == [];
    assert FatalResults(cfg, []) == [] && SendResults(s, cfg, node, []) == [];
    assert FatalResults(cfg, [r]) == [Dispatch(r, Fatal)] && SendResults(s, cfg, node, [r]) == [];
    assert FatalResults(cfg, [q, r]) == [Dispatch(r, Fatal)];
    assert SendResults(s, cfg, node, [q, r]) == [Dispatch(q, Success)];
  }

  lemma HeavyReaches(s: State, n: nat)
    requires Is(s, TooHeavy())
    ensures !ReachesIn(s, 2, 1, n)
  {
    hide FeeInfoForPaidSpeedup;
    assert forall z :: RestsOn(s.txs[1], z) ==> z == 9 || z == 4;
    assert 9 !in Pending(s) && 4 !in Pending(s);
  }

  /** The facts about the batch that the run below turns on. */
  lemma HeavyFacts(s: State)
    requires Is(s, TooHeavy())
    ensures var e := DispatchSpeedupsEvent(PlainNode(true, true), true, 0);
            var ds := Outcomes(s, Settings(2), e);
      && Admissible(s, Settings(2), e)
      && IsWaiting(s, 2) && ReservedBy(s.txs[2], CHANGE.op) && 1 in s.txs && s.txs[1].kind.Speedup?
      && Felled(s, Settings(2), e.node, ds, 0, 2)
      && Restored(s, Settings(2), e.node, ds, 0, 2, CHANGE.op)
      && Taken(e.node, ds, 1)
  {
    hide FeeInfoForPaidSpeedup, SpeedupOutcomes, Reaches;
    var cfg, e := Settings(2), DispatchSpeedupsEvent(PlainNode(true, true), true, 0);
    HeavyOutcomes(s);
    var ds := Outcomes(s, cfg, e);
    var c1, c2 := First(true, ToDispatch, Some(6), true), SecondOf(5000, false, ToDispatch, None);
    assert ds == [Dispatch(c2, Fatal), Dispatch(c1, Success)];
    assert FailsRoot(cfg, e.node, ds[0], 0) && Accepted(e.node, ds[1]) && !FailsRoot(cfg, e.node, ds[1], 0);
    forall n: nat ensures !ReachesIn(s, 2, 1, n) {
      HeavyReaches(s, n);
    }
    assert !Reaches(s, 2, 1) by { NoReach(s, 2, 1); }
    assert OwnInputs(s.txs[2]) == [CHANGE] && CHANGE.op == OutPoint(1, 0);
    assert ReservedBy(s.txs[2], CHANGE.op) by { assert OwnInputs(s.txs[2])[0].op == CHANGE.op; }
    assert ds[0].tx.txid == 2 && ds[1].tx.txid == 1;
  }

  lemma NoReach(s: State, root: Txid, e: Txid)
    requires forall n: nat :: !ReachesIn(s, root, e, n)
    ensures !Reaches(s, root, e)
  {}

  /** A run that loses funding: a CPFP over the weight limit is settled Failed and gives back the change it was to spend, and then the
      speedup whose change that is, lost and sent again in the same batch, is accepted with the snapshot in which the change is still
      reserved. Nothing that has not failed uses the change, and no funding pass hands it out. */
  lemma ChangeLeaks() returns (s: State, e: Event, v: Txid, op: OutPoint)
    ensures Settings(2).Valid() && Reachable(Settings(2), s) && Admissible(s, Settings(2), e) && e.DispatchSpeedupsEvent?
    ensures IsWaiting(s, v) && ReservedBy(s.txs[v], op)
    ensures var s' := Step(s, Settings(2), e);
      && v in s'.txs && s'.txs[v].state.Failed?
      && op.txid in s'.txs && s'.txs[op.txid].state.OnNode()
      && Marked(s', op) && forall x :: Live(s', x) ==> !Uses(s', x, op)
  {
    hide Reachable, TooHeavy, Restored, Felled, Taken, Outcomes, Marked, ReservedBy, Step, Admissible, Evolves, Inv;
    s := HeavyWaits();
    e, v, op := DispatchSpeedupsEvent(PlainNode(true, true), true, 0), 2, CHANGE.op;
    HeavyFacts(s);
    ReachableInv(Settings(2), s);
    ReleasedExactlyWhen(s, Settings(2), e, v, op);
    EventTracks(s, Settings(2), e);
    EventConsistent(s, Settings(2), e);
    TakenIsNotFelled(s, Settings(2), e.node, Outcomes(s, Settings(2), e), 0, v);
    FirstAlsoWaits(s);
    OnlySecondUses(s, Step(s, Settings(2), e), Settings(2), e.node, Outcomes(s, Settings(2), e));
  }

  lemma FirstAlsoWaits(s: State)
    requires Is(s, TooHeavy())
    ensures IsWaiting(s, 1) && CHANGE.op.txid == 1
  {
    hide FeeInfoForPaidSpeedup;
  }

  lemma OnlySecondUses(s: State, s': State, cfg: Config, node: Node, ds: seq<Dispatch>)
    requires Is(s, TooHeavy()) && Tracks(s, s', cfg, node, ds, 0) && 2 in s'.txs && s'.txs[2].state.Failed?
    ensures forall x :: Live(s', x) ==> !Uses(s', x, CHANGE.op)
  {
    hide FeeInfoForPaidSpeedup, Taken, Felled;
    forall x | Live(s', x) ensures !Uses(s', x, CHANGE.op) {
      assert x in s.txs && SameShape(s.txs[x], s'.txs[x]);
      assert s.txs[1].FundingInputs() == [FUND];
    }
  }
}

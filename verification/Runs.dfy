/** Whole runs: the tick's six steps and the client calls as events, in any order and any number.

    A tick is one particular sequence of six events, and a crash between two steps is a run that goes on with
    another event, so every theorem about runs covers both. */
module Runs {
  import opened Types
  import opened Oracles
  import opened States
  import opened Funding
  import opened Failures
  import opened Dispatching
  import opened Engines
  import opened Invariants
  import opened Evolution
  import opened FailureLaws
  import opened GrowthLaws
  import opened BuildLaws
  import opened ReviewLaws
  import opened DispatchLaws
  import opened OutcomeLaws
  import opened CreationLaws

  datatype Event =
    | ReviewClientsEvent(status: Txid -> ChainStatus, order: seq<Txid>, height: BlockHeight)
    | ReviewSpeedupsEvent(status: Txid -> ChainStatus, height: BlockHeight)
    | DispatchClientsEvent(node: Node, order: seq<Txid>, retryReady: bool, estimate: Option<nat>, height: BlockHeight)
    | DispatchSpeedupsEvent(node: Node, retryReady: bool, height: BlockHeight)
    | BoostEvent(builder: Builder, estimate: Option<nat>, skipBoost: bool, height: BlockHeight)
    | CreateCpfpEvent(builder: Builder, estimate: Option<nat>, height: BlockHeight)
    | RegisterEvent(registration: Registration, estimate: Option<nat>, height: BlockHeight)
    | AddFundingEvent(utxo: Utxo)
    | CancelEvent(txids: seq<Txid>)

  function Step(s: State, cfg: Config, e: Event): State {
    match e
    case ReviewClientsEvent(status, order, height) => ReviewActive(s, cfg, status, order, height)
    case ReviewSpeedupsEvent(status, height) => ReviewSpeedups(s, cfg, status, height)
    case DispatchClientsEvent(node, order, ready, estimate, height) =>
      DispatchPending(s, cfg, node, order, ready, estimate, height)
    case DispatchSpeedupsEvent(node, ready, height) => DispatchPendingSpeedups(s, cfg, node, ready, height)
    case BoostEvent(b, estimate, skip, height) => BoostIfStale(s, cfg, b, estimate, skip, height)
    case CreateCpfpEvent(b, estimate, height) => CreateCpfpBatch(s, cfg, b, estimate, height)
    case RegisterEvent(g, estimate, height) => Register(s, cfg, g, estimate, height)
    case AddFundingEvent(utxo) => AddFunding(s, cfg, utxo)
    case CancelEvent(txids) => Cancel(s, txids)
  }

  /** The hypotheses, event by event: H1 fresh txids, H2 fresh funding, H3 a consistent node. The store lists
      each record once. */
  ghost predicate Admissible(s: State, cfg: Config, e: Event) {
    match e
    case ReviewClientsEvent(_, order, _) => NoDup(order)
    case ReviewSpeedupsEvent(_, _) => true
    case DispatchClientsEvent(_, order, _, _, _) => NoDup(order)
    case DispatchSpeedupsEvent(node, ready, height) => ConsistentNode(s, cfg, node, ready, height)
    case BoostEvent(b, _, _, _) => FreshBuilder(s, b)
    case CreateCpfpEvent(b, _, _) => FreshBuilder(s, b)
    case RegisterEvent(g, _, _) => ClientTxid(s, g.txid)
    case AddFundingEvent(utxo) => FreshOutpoint(s, utxo.op)
    case CancelEvent(_) => true
  }

  function Run(s: State, cfg: Config, es: seq<Event>): State
    decreases |es|
  {
    if es == [] then s else Run(Step(s, cfg, es[0]), cfg, es[1..])
  }

  ghost predicate AdmissibleRun(s: State, cfg: Config, es: seq<Event>)
    decreases |es|
  {
    es != [] ==> Admissible(s, cfg, es[0]) && AdmissibleRun(Step(s, cfg, es[0]), cfg, es[1..])
  }

  // ---------------------------------------------------------------- the invariant

  lemma EmptyInv()
    ensures Inv(EMPTY)
  {}

  lemma StepKeepsInv(s: State, cfg: Config, e: Event)
    requires Inv(s) && cfg.Valid() && Admissible(s, cfg, e)
    ensures Inv(Step(s, cfg, e))
  {
    hide Inv, ReviewActive, ReviewSpeedups, DispatchPending, DispatchPendingSpeedups, BoostIfStale, CreateCpfpBatch;
    hide Register, AddFunding, Cancel, ConsistentNode, FreshBuilder, FreshOutpoint;
    match e
    case ReviewClientsEvent(status, order, height) => ReviewActiveKeepsInv(s, cfg, status, order, height);
    case ReviewSpeedupsEvent(status, height) => ReviewSpeedupsKeepsInv(s, cfg, status, height);
    case DispatchClientsEvent(node, order, ready, estimate, height) =>
      DispatchPendingKeepsInv(s, cfg, node, order, ready, estimate, height);
    case DispatchSpeedupsEvent(node, ready, height) => DispatchSpeedupsKeepsInv(s, cfg, node, ready, height);
    case BoostEvent(b, estimate, skip, height) => BoostKeepsInv(s, cfg, b, estimate, skip, height);
    case CreateCpfpEvent(b, estimate, height) => CreateKeepsInv(s, cfg, b, estimate, height);
    case RegisterEvent(g, estimate, height) => RegisterOpKeepsInv(s, cfg, g, estimate, height);
    case AddFundingEvent(utxo) => AddFundingKeepsInv(s, cfg, utxo);
    case CancelEvent(txids) => CancelKeepsInv(s, txids);
  }

  lemma {:induction false} RunKeepsInv(s: State, cfg: Config, es: seq<Event>)
    requires Inv(s) && cfg.Valid() && AdmissibleRun(s, cfg, es)
    ensures Inv(Run(s, cfg, es))
    decreases |es|
  {
    hide Inv, Step, Admissible;
    if es != [] {
      StepKeepsInv(s, cfg, es[0]);
      RunKeepsInv(Step(s, cfg, es[0]), cfg, es[1..]);
    }
  }

  /** Every state the coordinator can get into. */
  ghost predicate Reachable(cfg: Config, s: State) {
    exists es :: AdmissibleRun(EMPTY, cfg, es) && Run(EMPTY, cfg, es) == s
  }

  lemma ReachableInv(cfg: Config, s: State)
    requires cfg.Valid() && Reachable(cfg, s)
    ensures Inv(s)
  {
    hide Inv, AdmissibleRun, Run;
    var es :| AdmissibleRun(EMPTY, cfg, es) && Run(EMPTY, cfg, es) == s;
    EmptyInv();
    RunKeepsInv(EMPTY, cfg, es);
  }

  // ---------------------------------------------------------------- what it means for funding

  /** No double reservation: an outpoint is an input of two non-terminal speedups only when one is an RBF
      descendant of the other, and then the older one is being replaced. */
  lemma NoDoubleReservation(cfg: Config, s: State, x: Txid, y: Txid, op: OutPoint)
    requires cfg.Valid() && Reachable(cfg, s)
    requires x != y && Live(s, x) && Live(s, y) && Uses(s, x, op) && Uses(s, y, op)
    ensures (Ancestor(s, x, y) && Masked(s, x)) || (Ancestor(s, y, x) && Masked(s, y))
  {
    hide Reachable, Structure, InheritOk, WaitingOk, MarkOk, ReservedOk, Masked;
    ReachableInv(cfg, s);
  }

  /** `get_funding` and `get_combine_funding` never hand out an outpoint a non-Failed speedup uses, and two
      consecutive answers differ. */
  lemma NothingUsedIsHandedOut(cfg: Config, s: State, x: Txid)
    requires cfg.Valid() && Reachable(cfg, s) && Live(s, x)
    ensures GetFunding(s).1.Some? ==> !Uses(s, x, GetFunding(s).1.value.0.op)
    ensures GetCombineFunding(s).1.Some? ==> !Uses(s, x, GetCombineFunding(s).1.value.op)
    ensures var (s', chosen) := GetFunding(s);
            chosen.Some? && GetCombineFunding(s').1.Some? ==> GetCombineFunding(s').1.value.op != chosen.value.0.op
  {
    ReachableInv(cfg, s);
    hide Inv, Reachable, KeysOk, ListOk, LineageOk, RbfOk, QueueOk, InputsOk, LifecycleOk, ParentsOk, ReservedOk;
    InvParts(s);
    ChosenIsOnOffer(s);
    CombineIsOnOffer(s);
    hide ChosenFunding, LatestOpenTip, FirstOpenRecord;
    if GetFunding(s).1.Some? {
      var op := GetFunding(s).1.value.0.op;
      OfferIsUnused(s, op, x);
      SetSpentKeepsQueue(s, op);
      CombineIsOnOffer(SetSpent(s, op, true));
    }
    if GetCombineFunding(s).1.Some? {
      OfferIsUnused(s, GetCombineFunding(s).1.value.op, x);
    }
  }

  /** RBF lineage ownership: one or two inputs, a second one user-provided, an RBF's inputs are its stored
      predecessor's followed by the ones it claimed, and no input has two claimers along a live lineage. */
  lemma LineageOwnership(cfg: Config, s: State, t: Txid)
    requires cfg.Valid() && Reachable(cfg, s) && IsSpeedup(s, t)
    ensures var us := s.txs[t].FundingInputs();
      && 1 <= |us| <= 2
      && (|us| == 2 ==> us[0].op != us[1].op && us[1].op.txid !in s.lineage)
    ensures forall p :: s.txs[t].Supersedes(p) && IsSpeedup(s, p) ==>
              s.txs[t].FundingInputs() == s.txs[p].FundingInputs() + s.txs[t].Claimed()
    ensures forall p, op :: Live(s, t) && Live(s, p) && Ancestor(s, p, t) && Claims(s, t, op) ==> !Claims(s, p, op)
  {
    ReachableInv(cfg, s);
    hide Reachable, SharingOk, MaskOk, WaitingOk, MarkOk, ReservedOk, LifecycleOk, ParentsOk, OnePrebuilt;
    assert InputsOf(s, t) && InheritsInputs(s, t);
    forall p, op | Live(s, t) && Live(s, p) && Ancestor(s, p, t) && Claims(s, t, op) ensures !Claims(s, p, op) {
      if Claims(s, p, op) {
        ClaimsAreInputs(s, p, op);
      }
    }
  }

  /** At most one pre-built speedup, and the funding list is duplicate-free and in bijection with its records. */
  lemma OnePrebuiltAtATime(cfg: Config, s: State, x: Txid, y: Txid)
    requires cfg.Valid() && Reachable(cfg, s) && Prebuilt(s, x) && Prebuilt(s, y)
    ensures x == y
  {
    hide Reachable, Structure, Reservations, LifecycleOk, ParentsOk;
    ReachableInv(cfg, s);
  }

  lemma QueueIntegrity(cfg: Config, s: State)
    requires cfg.Valid() && Reachable(cfg, s)
    ensures NoDup(s.queue)
    ensures forall op :: op in s.queue <==> op in s.funding
    ensures forall op :: op in s.funding ==> s.funding[op].utxo.op == op
  {
    ReachableInv(cfg, s);
    hide Inv, Reachable, KeysOk, ListOk, LineageOk, RbfOk, InputsOk, LifecycleOk, ParentsOk, ReservedOk;
    InvParts(s);
    forall op | op in s.funding ensures s.funding[op].utxo.op == op {
      assert RecordOk(s, op);
    }
  }

  /** A ToDispatch member of an RBF lineage has only Failed successors. */
  lemma WaitingHasNoLiveSuccessor(cfg: Config, s: State, x: Txid, y: Txid)
    requires cfg.Valid() && Reachable(cfg, s) && Waiting(s, x) && IsSpeedup(s, y) && Ancestor(s, x, y)
    ensures s.txs[y].state.Failed?
  {
    ReachableInv(cfg, s);
    hide Reachable, Structure, SharingOk, InheritOk, MarkOk, ReservedOk, LifecycleOk, ParentsOk, OnePrebuilt, Masked;
    assert !Masked(s, x);
    assert Live(s, y) ==> Masked(s, x);
  }

  // ---------------------------------------------------------------- pending parents and eviction

  /** PSP holds each stored NeedsSpeedup record at most once, a CPFP covers each parent once, and every
      non-terminal speedup is listed exactly once. */
  lemma PendingIntegrity(cfg: Config, s: State)
    requires cfg.Valid() && Reachable(cfg, s)
    ensures NoDup(s.psp) && forall t :: t in s.psp ==> t in s.txs && s.txs[t].kind.NeedsSpeedup?
    ensures forall t :: t in s.txs ==> NoDup(s.txs[t].Parents())
    ensures NoDup(s.speedups) && forall t :: IsSpeedup(s, t) && !s.txs[t].state.Terminal() ==> t in s.speedups
  {
    ReachableInv(cfg, s);
    hide Reachable, Reservations, LifecycleOk, OnePrebuilt, KeysOk, LineageOk, RbfOk, OrderOk, InputsOk, ChangeOk, QueueOk;
  }

  /** Eviction never removes a NeedsSpeedup parent that some non-terminal CPFP anywhere in the store covers. */
  lemma EvictionSparesCoveredParents(cfg: Config, s: State, c: Txid, p: Txid, height: BlockHeight, maxTracking: nat)
    requires cfg.Valid() && Reachable(cfg, s)
    requires IsSpeedup(s, c) && !s.txs[c].state.Terminal() && p in s.txs[c].Parents()
    requires p in s.txs && s.txs[p].kind.NeedsSpeedup?
    ensures p in EvictStaleTxs(s, height, maxTracking).txs && c in EvictStaleTxs(s, height, maxTracking).txs
    ensures EvictStaleTxs(s, height, maxTracking).txs[p] == s.txs[p]
  {
    PendingIntegrity(cfg, s);
    hide Reachable;
    var all := SpeedupRecords(s);
    assert s.txs[c] in all;
    var i :| 0 <= i < |all| && all[i] == s.txs[c];
    assert !all[i].state.Terminal() && p in all[i].Parents();
    assert p in LiveCovered(s);
  }
}

/** The outcomes of a dispatch event, and the batch theorems read as statements about that event. */
module EventOutcomes {
  import opened Types
  import opened Oracles
  import opened States
  import opened Failures
  import opened Dispatching
  import opened Engines
  import opened Invariants
  import opened CascadeLaws
  import opened DispatchLaws
  import opened OutcomeLaws
  import opened Runs

  /** The outcomes a dispatch event hands to the handlers; other events have none. */
  function Outcomes(s: State, cfg: Config, e: Event): seq<Dispatch> {
    match e
    case DispatchClientsEvent(node, order, ready, _, height) => ClientOutcomes(s, cfg, node, order, ready, height)
    case DispatchSpeedupsEvent(node, ready, _) => SpeedupOutcomes(s, cfg, node, ready)
    case _ => []
  }

  predicate IsDispatch(e: Event) {
    e.DispatchClientsEvent? || e.DispatchSpeedupsEvent?
  }

  ghost predicate HasOutcome(ds: seq<Dispatch>, t: Txid) {
    exists i :: 0 <= i < |ds| && ds[i].tx.txid == t
  }

  /** A failing outcome of the batch cascades to `t`. */
  ghost predicate TakenDown(s: State, cfg: Config, node: Node, ds: seq<Dispatch>, height: BlockHeight, t: Txid) {
    exists j :: 0 <= j < |ds| && FailsRoot(cfg, node, ds[j], height) && Reaches(s, ds[j].tx.txid, t)
  }

  /** The snapshot an outcome carries is the stored record of the moment the step began. */
  lemma OutcomeIsStored(s: State, cfg: Config, e: Event, i: nat)
    requires Inv(s) && Admissible(s, cfg, e) && IsDispatch(e) && i < |Outcomes(s, cfg, e)|
    ensures var d := Outcomes(s, cfg, e)[i]; IsWaiting(s, d.tx.txid) && s.txs[d.tx.txid] == d.tx
  {
    hide Inv, NoDup, MayFall, Snapshot, ConsistentNode, ClientOutcomes, SpeedupOutcomes;
    match e
    case DispatchClientsEvent(node, order, ready, _, height) => ClientItems(s, cfg, node, order, ready, height);
    case DispatchSpeedupsEvent(node, ready, _) =>
      SpeedupItems(s, cfg, node, ready);
      BatchIsWaiting(s, ready, Outcomes(s, cfg, e)[i].tx);
  }

  lemma EventTracks(s: State, cfg: Config, e: Event)
    requires Inv(s) && Admissible(s, cfg, e) && IsDispatch(e)
    ensures Tracks(s, Step(s, cfg, e), cfg, e.node, Outcomes(s, cfg, e), e.height)
    ensures Distinct(Outcomes(s, cfg, e))
  {
    hide Inv, NoDup, MayFall, Snapshot, ConsistentNode, ClientOutcomes, SpeedupOutcomes, Tracks, AcceptsWaiting, Distinct;
    hide DispatchPending, DispatchPendingSpeedups;
    match e
    case DispatchClientsEvent(node, order, ready, estimate, height) =>
      ClientItems(s, cfg, node, order, ready, height);
      ClientBatchTracks(s, cfg, node, order, ready, estimate, height);
    case DispatchSpeedupsEvent(node, ready, height) =>
      SpeedupItems(s, cfg, node, ready);
      SpeedupBatchTracks(s, cfg, node, ready, height);
  }

  lemma EventConsistent(s: State, cfg: Config, e: Event)
    requires Inv(s) && Admissible(s, cfg, e) && IsDispatch(e)
    ensures ConsistentOutcomes(s, cfg, e.node, Outcomes(s, cfg, e), e.height)
  {
    hide Inv, NoDup, ConsistentOutcomes, ClientOutcomes, SpeedupOutcomes, ClientSnapshot;
    match e
    case DispatchClientsEvent(node, order, ready, estimate, height) =>
      ClientItems(s, cfg, node, order, ready, height);
      ClientsAreConsistent(s, cfg, node, Outcomes(s, cfg, e), height);
    case DispatchSpeedupsEvent(node, ready, height) =>
  }

  lemma TakenIsNotFelled(s: State, cfg: Config, node: Node, ds: seq<Dispatch>, height: BlockHeight, t: Txid)
    requires ConsistentOutcomes(s, cfg, node, ds, height) && Distinct(ds)
    ensures Taken(node, ds, t) ==> !Felled(s, cfg, node, ds, height, t)
  {
    hide Reaches, FailsRoot, Accepted;
    forall i, j | 0 <= i < |ds| && 0 <= j < |ds| && Accepted(node, ds[i]) && ds[i].tx.txid == t && FailsRoot(cfg, node, ds[j], height)
      ensures ds[j].tx.txid != t && !Reaches(s, ds[j].tx.txid, t)
    {
      AcceptedDoesNotFail(cfg, node, ds[i], height);
      assert i != j;
    }
  }

  lemma ClientNotTakenDown(s: State, cfg: Config, node: Node, ds: seq<Dispatch>, height: BlockHeight, t: Txid)
    requires t in s.txs && !s.txs[t].kind.Speedup?
    ensures !TakenDown(s, cfg, node, ds, height, t)
  {
    hide Reaches, FailsRoot;
    forall root ensures !Reaches(s, root, t) {
      ReachedPends(s, root, t);
    }
  }
}

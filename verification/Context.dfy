/** The dispatcher (src/core/dispatcher.rs) and the handlers both engines share (src/engines/common.rs) in their
    imperative form. */
module Contexts {
  import opened Types
  import opened Oracles
  import States
  import Failures
  import Dispatching
  import Engines
  import opened Stores
  import opened Managers

  class EngineContext {
    const cfg: Config
    const storage: Store
    const fundingManager: FundingManager

    constructor (cfg: Config, storage: Store)
      ensures this.cfg == cfg && this.storage == storage && fundingManager.storage == storage
    {
      this.cfg := cfg;
      this.storage := storage;
      this.fundingManager := new FundingManager(storage);
    }

    /** The manager works on the same store. */
    ghost predicate Valid()
      reads storage
    {
      storage.Valid() && fundingManager.storage == storage
    }

    ghost function Value(): States.State
      reads storage
    {
      storage.Value()
    }

    // -------------------------------------------------------------- dispatcher

    method FailedParent(tx: CoordinatedTx) returns (p: Option<Txid>)
      ensures p == Dispatching.FailedParent(Value(), tx.tx.inputs)
    {
      hide Dispatching.FailedParent;
      var inputs := tx.tx.inputs;
      var i := 0;
      assert inputs[0..] == inputs;
      while i < |inputs|
        invariant 0 <= i <= |inputs|
        invariant Dispatching.FailedParent(Value(), inputs[i..]) == Dispatching.FailedParent(Value(), inputs)
      {
        FailedParentStep(Value(), inputs, i);
        var parent := inputs[i].txid;
        if parent in storage.txs && storage.txs[parent].state.Failed? {
          return Some(parent);
        }
        i := i + 1;
      }
      FailedParentEnd(Value(), inputs);
      return None;
    }

    method ParentsReady(node: Node, tx: CoordinatedTx) returns (ready: bool)
      ensures ready == Dispatching.ParentsReady(Value(), node, tx)
    {
      var inputs := tx.tx.inputs;
      var i := 0;
      while i < |inputs|
        invariant 0 <= i <= |inputs|
        invariant forall j :: 0 <= j < i && inputs[j].txid in storage.txs ==> node.parentReady(tx.txid, inputs[j].txid)
      {
        if inputs[i].txid in storage.txs && !node.parentReady(tx.txid, inputs[i].txid) {
          return false;
        }
        i := i + 1;
      }
      return true;
    }

    /** Splits off what can never be valid; the rest keeps its order. */
    method Validate(txs: seq<CoordinatedTx>) returns (valid: seq<CoordinatedTx>, failures: seq<Dispatching.Dispatch>)
      ensures valid == WellFormed(cfg, txs)
      ensures failures == Dispatching.FatalResults(cfg, txs)
    {
      hide Dispatching.FatalResults, WellFormed;
      valid, failures := [], [];
      var i := 0;
      assert txs[0..] == txs;
      while i < |txs|
        invariant 0 <= i <= |txs|
        invariant valid + WellFormed(cfg, txs[i..]) == WellFormed(cfg, txs)
        invariant failures + Dispatching.FatalResults(cfg, txs[i..]) == Dispatching.FatalResults(cfg, txs)
      {
        ValidateStep(cfg, txs, i);
        if txs[i].tx.inputs == [] || txs[i].tx.weight > cfg.maxTxWeight {
          failures := failures + [Dispatching.Dispatch(txs[i], Dispatching.Fatal)];
        } else {
          valid := valid + [txs[i]];
        }
        i := i + 1;
      }
      ValidateEnd(cfg, txs);
    }

    method Dispatch(node: Node, txs: seq<CoordinatedTx>) returns (results: seq<Dispatching.Dispatch>)
      ensures results == Dispatching.DispatchAll(Value(), cfg, node, txs)
    {
      hide Dispatching.FatalResults, Dispatching.SendResults, WellFormed, Dispatching.SendOne;
      var valid, failures := Validate(txs);
      results := failures;
      SendValid(Value(), cfg, node, txs);
      var i := 0;
      assert valid[0..] == valid;
      while i < |valid|
        invariant 0 <= i <= |valid|
        invariant results + Sends(Value(), node, valid[i..]) == failures + Sends(Value(), node, valid)
      {
        SendsStep(Value(), node, valid, i);
        var outcome := Send(node, valid[i]);
        if outcome.Some? {
          results := results + [Dispatching.Dispatch(valid[i], outcome.value)];
        }
        i := i + 1;
      }
      SendsEnd(Value(), node, valid);
    }

    /** A dead parent first, then a parent not there yet, then the broadcast itself. */
    method Send(node: Node, tx: CoordinatedTx) returns (outcome: Option<Dispatching.Outcome>)
      ensures outcome == Dispatching.SendOne(Value(), node, tx)
    {
      var failed := FailedParent(tx);
      if failed.Some? {
        return Some(Dispatching.ParentFailed(failed.value));
      }
      var ready := ParentsReady(node, tx);
      if !ready {
        return None;
      }
      return Some(if node.accepts(tx.txid) then Dispatching.Success else Dispatching.SendError);
    }

    // -------------------------------------------------------------- outcomes

    method MarkReorg(tx: CoordinatedTx, height: BlockHeight)
      requires Valid()
      modifies storage
      ensures Valid() && Value() == Engines.MarkReorg(old(Value()), tx, height)
    {
      storage.UpdateTx(tx.(state := InMempool, broadcastBlockHeight := Some(height)));
    }

    method MarkReplaced(tx: CoordinatedTx)
      requires Valid()
      modifies storage
      ensures Valid() && Value() == Dispatching.MarkReplaced(old(Value()), tx)
    {
      if tx.IsRBF() {
        SetReplacedBy(tx.kind.speedup.predecessor, Some(tx.txid));
      }
    }

    method SetReplacedBy(t: Txid, mark: Option<Txid>)
      requires Valid()
      modifies storage
      ensures Valid() && Value() == Failures.SetReplacedBy(old(Value()), t, mark)
    {
      if t in storage.txs && storage.txs[t].kind.Speedup? {
        var r := storage.txs[t];
        storage.UpdateTx(r.WithContext(r.kind.speedup.context.(replacedBy := mark)));
      }
    }

    method MarkAccepted(tx: CoordinatedTx, height: BlockHeight, fee: FeeInfo)
      requires Valid()
      modifies storage
      ensures Valid() && Value() == Dispatching.MarkAccepted(old(Value()), tx, height, fee)
    {
      MarkReplaced(tx);
      storage.UpdateTx(tx.(state := InMempool, broadcastBlockHeight := Some(height), feeInfo := fee, failGuardUntil := None));
    }

    method MarkAlreadyConfirmed(tx: CoordinatedTx, height: BlockHeight)
      requires Valid()
      modifies storage
      ensures Valid() && Value() == Dispatching.MarkAlreadyConfirmed(old(Value()), tx, height)
    {
      MarkReplaced(tx);
      var updated := tx;
      if updated.broadcastBlockHeight.None? {
        updated := updated.(broadcastBlockHeight := Some(height));
      }
      storage.UpdateTx(updated.(state := Confirmed, failGuardUntil := None));
    }

    method SettleFailedDispatch(tx: CoordinatedTx, height: BlockHeight, fundingMissing: bool)
      requires Valid()
      modifies storage
      ensures Valid() && Value() == Failures.SettleFailedDispatch(old(Value()), tx, height, fundingMissing)
    {
      storage.SettleTx(tx.txid, Failed, height);
      storage.AddNews(Failures.DispatchErrorNews(tx));
      if tx.kind.Speedup? {
        fundingManager.ReleaseMarks(tx.kind.speedup.Claimed());
        if tx.IsRBF() {
          SetReplacedBy(tx.kind.speedup.predecessor, None);
        }
      }
      if fundingMissing {
        storage.RequeueProtocolParents(tx);
      }
    }

    /** Recursive over the mutable store: each level loops over the snapshot it took after settling. */
    method FailAndCascade(tx: CoordinatedTx, height: BlockHeight, fundingMissing: bool)
      requires Valid()
      modifies storage
      ensures Valid() && Value() == Failures.FailAndCascade(old(Value()), tx, height, fundingMissing)
      decreases |Failures.Pending(Value())|, if tx.txid in Failures.Pending(Value()) then 0 else 1
    {
      hide Failures.FailAndCascade, Failures.CascadeOver, Failures.SettleFailedDispatch, Failures.Victims, Failures.Pending;
      ghost var before := Value();
      SettleFailedDispatch(tx, height, fundingMissing);
      ghost var settled := Value();
      Failures.SettleShrinksPending(before, tx, height, fundingMissing);
      var all := storage.GetSpeedupsOrdered();
      CascadeStarts(before, tx, height, fundingMissing);
      var i := 0;
      assert all[0..] == all;
      while i < |all|
        invariant 0 <= i <= |all| && Valid()
        invariant Failures.CascadeOver(Value(), Failures.Victims(settled, all[i..], tx.txid), height)
                  == Failures.FailAndCascade(before, tx, height, fundingMissing)
        invariant Failures.Pending(Value()) <= Failures.Pending(settled)
      {
        var d := all[i];
        VictimsStep(settled, all, i, tx.txid);
        SnapshotPending(settled, d);
        if d.state.ToDispatch? && d.kind.Speedup? && d.DependsOn(tx.txid) {
          CascadeOverStep(Value(), d, Failures.Victims(settled, all[i + 1..], tx.txid), height);
          Failures.SubsetSize(Failures.Pending(Value()), Failures.Pending(before));
          FailAndCascade(d, height, true);
        }
        i := i + 1;
      }
      CascadeEnds(Value(), settled, all, tx.txid, height);
    }

    /** Covered parents that have not settled Failed go back to the front of the pending list. */
    method RebuildSurvivors(tx: CoordinatedTx, height: BlockHeight)
      requires Valid()
      modifies storage
      ensures Valid() && Value() == Dispatching.RebuildSurvivors(old(Value()), tx, height)
    {
      hide Dispatching.Survivors, Dispatching.Dedup, Failures.FailAndCascade, States.StillNeedSpeedup;
      var ops := tx.NonFundingInputs();
      var survivors: seq<Txid> := [];
      var i := 0;
      assert ops[0..] == ops;
      while i < |ops|
        invariant 0 <= i <= |ops| && Valid() && Value() == old(Value())
        invariant survivors + Dispatching.Survivors(Value(), ops[i..]) == Dispatching.Survivors(Value(), ops)
      {
        SurvivorsStep(Value(), ops, i);
        var t := ops[i].txid;
        if !(t in storage.txs && storage.txs[t].state.Failed?) {
          survivors := survivors + [t];
        }
        i := i + 1;
      }
      SurvivorsEnd(Value(), ops);
      assert survivors == Dispatching.Survivors(old(Value()), ops);
      FailAndCascade(tx, height, false);
      var unique := Deduplicated(survivors);
      var toRequeue := storage.FilterNeedsSpeedup(unique);
      storage.PrependPending(toRequeue);
    }

    static method Deduplicated(xs: seq<Txid>) returns (r: seq<Txid>)
      ensures r == Dispatching.Dedup(xs)
    {
      r := [];
      var i := 0;
      while i < |xs|
        invariant 0 <= i <= |xs|
        invariant r == Dispatching.Dedup(xs[..i])
      {
        assert xs[..i + 1][..i] == xs[..i];
        if xs[i] !in r {
          r := r + [xs[i]];
        }
        i := i + 1;
      }
      assert xs[..i] == xs;
    }

    method SettleFailedChild(tx: CoordinatedTx, height: BlockHeight)
      requires Valid()
      modifies storage
      ensures Valid() && Value() == Dispatching.SettleFailedChild(old(Value()), tx, height)
    {
      if tx.IsFirstCpfp() {
        RebuildSurvivors(tx, height);
      } else {
        FailAndCascade(tx, height, false);
      }
    }

    method ClassifyDispatchError(node: Node, tx: CoordinatedTx, height: BlockHeight, fee: FeeInfo)
      requires Valid()
      modifies storage
      ensures Valid() && Value() == Dispatching.ClassifyDispatchError(old(Value()), cfg, node, tx, height, fee)
    {
      var confirmations := node.confirmations(tx.txid);
      if confirmations == Some(0) {
        MarkAccepted(tx, height, fee);
        return;
      } else if confirmations.Some? {
        MarkAlreadyConfirmed(tx, height);
        return;
      }
      var missing := Dispatching.MissingInputKind(node, tx);
      if missing.Some? {
        if tx.failGuardUntil.Some? && height < tx.failGuardUntil.value {
          storage.MarkAsRetry(tx.txid);
        } else if missing.value {
          FailAndCascade(tx, height, true);
        } else {
          SettleFailedChild(tx, height);
        }
      } else if tx.retryCount + 1 >= cfg.retryAttempts {
        FailAndCascade(tx, height, false);
      } else {
        storage.MarkAsRetry(tx.txid);
      }
    }

    method HandleDispatchResult(node: Node, d: Dispatching.Dispatch, height: BlockHeight, fee: FeeInfo)
      requires Valid()
      modifies storage
      ensures Valid() && Value() == Dispatching.HandleDispatchResult(old(Value()), cfg, node, d, height, fee)
    {
      match d.outcome
      case Success => MarkAccepted(d.tx, height, fee);
      case Fatal => FailAndCascade(d.tx, height, false);
      case ParentFailed(_) => SettleFailedChild(d.tx, height);
      case SendError => ClassifyDispatchError(node, d.tx, height, fee);
    }

    method HandleAll(node: Node, ds: seq<Dispatching.Dispatch>, height: BlockHeight, fee: CoordinatedTx -> FeeInfo)
      requires Valid()
      modifies storage
      ensures Valid() && Value() == Engines.HandleAll(old(Value()), cfg, node, ds, height, fee)
    {
      hide Dispatching.HandleDispatchResult;
      var i := 0;
      assert ds[0..] == ds;
      while i < |ds|
        invariant 0 <= i <= |ds| && Valid()
        invariant Engines.HandleAll(Value(), cfg, node, ds[i..], height, fee) == Engines.HandleAll(old(Value()), cfg, node, ds, height, fee)
      {
        assert ds[i..][1..] == ds[i + 1..];
        HandleDispatchResult(node, ds[i], height, fee(ds[i].tx));
        i := i + 1;
      }
    }
  }

  // ---------------------------------------------------------------- one turn of a loop

  lemma FailedParentStep(s: States.State, inputs: seq<OutPoint>, i: nat)
    requires i < |inputs|
    ensures Dispatching.FailedParent(s, inputs[i..])
            == if inputs[i].txid in s.txs && s.txs[inputs[i].txid].state.Failed? then Some(inputs[i].txid)
               else Dispatching.FailedParent(s, inputs[i + 1..])
  {
    assert inputs[i..][1..] == inputs[i + 1..];
  }

  lemma FailedParentEnd(s: States.State, inputs: seq<OutPoint>)
    ensures Dispatching.FailedParent(s, inputs[|inputs|..]).None?
  {}

  function WellFormed(cfg: Config, txs: seq<CoordinatedTx>): seq<CoordinatedTx> {
    if txs == [] then []
    else (if Dispatching.Malformed(cfg, txs[0]) then [] else [txs[0]]) + WellFormed(cfg, txs[1..])
  }

  lemma ValidateStep(cfg: Config, txs: seq<CoordinatedTx>, i: nat)
    requires i < |txs|
    ensures WellFormed(cfg, txs[i..])
            == (if Dispatching.Malformed(cfg, txs[i]) then [] else [txs[i]]) + WellFormed(cfg, txs[i + 1..])
    ensures Dispatching.FatalResults(cfg, txs[i..])
            == (if Dispatching.Malformed(cfg, txs[i]) then [Dispatching.Dispatch(txs[i], Dispatching.Fatal)] else [])
               + Dispatching.FatalResults(cfg, txs[i + 1..])
  {
    assert txs[i..][1..] == txs[i + 1..];
  }

  lemma ValidateEnd(cfg: Config, txs: seq<CoordinatedTx>)
    ensures WellFormed(cfg, txs[|txs|..]) == [] && Dispatching.FatalResults(cfg, txs[|txs|..]) == []
  {}

  /** The outcomes of well-formed transactions, in order. */
  function Sends(s: States.State, node: Node, txs: seq<CoordinatedTx>): seq<Dispatching.Dispatch> {
    if txs == [] then []
    else
      var outcome := Dispatching.SendOne(s, node, txs[0]);
      (if outcome.Some? then [Dispatching.Dispatch(txs[0], outcome.value)] else []) + Sends(s, node, txs[1..])
  }

  lemma SendsStep(s: States.State, node: Node, txs: seq<CoordinatedTx>, i: nat)
    requires i < |txs|
    ensures var outcome := Dispatching.SendOne(s, node, txs[i]);
            Sends(s, node, txs[i..])
            == (if outcome.Some? then [Dispatching.Dispatch(txs[i], outcome.value)] else []) + Sends(s, node, txs[i + 1..])
  {
    assert txs[i..][1..] == txs[i + 1..];
  }

  lemma SendsEnd(s: States.State, node: Node, txs: seq<CoordinatedTx>)
    ensures Sends(s, node, txs[|txs|..]) == []
  {}

  /** Validating first and sending afterwards is the same as deciding one by one. */
  lemma {:induction false} SendValid(s: States.State, cfg: Config, node: Node, txs: seq<CoordinatedTx>)
    ensures Sends(s, node, WellFormed(cfg, txs)) == Dispatching.SendResults(s, cfg, node, txs)
  {
    hide Dispatching.SendOne, Dispatching.Malformed;
    if txs != [] {
      SendValid(s, cfg, node, txs[1..]);
      var rest := WellFormed(cfg, txs[1..]);
      assert ([txs[0]] + rest)[1..] == rest && [] + rest == rest;
      if !Dispatching.Malformed(cfg, txs[0]) {
        assert WellFormed(cfg, txs) == [txs[0]] + rest;
      }
    }
  }

  lemma CascadeStarts(s: States.State, tx: CoordinatedTx, height: BlockHeight, fundingMissing: bool)
    ensures var settled := Failures.SettleFailedDispatch(s, tx, height, fundingMissing);
            Failures.CascadeOver(settled, Failures.Victims(settled, States.SpeedupRecords(settled), tx.txid), height)
            == Failures.FailAndCascade(s, tx, height, fundingMissing)
  {}

  lemma VictimsStep(s: States.State, all: seq<CoordinatedTx>, i: nat, t: Txid)
    requires i < |all|
    ensures Failures.Victims(s, all[i..], t)
            == if all[i].txid in Failures.Pending(s) && all[i].DependsOn(t) then [all[i]] + Failures.Victims(s, all[i + 1..], t)
               else Failures.Victims(s, all[i + 1..], t)
  {
    assert all[i..][1..] == all[i + 1..];
  }

  /** The state a snapshot carries is the one the store had when it was taken. */
  lemma SnapshotPending(s: States.State, d: CoordinatedTx)
    requires forall t :: t in s.txs ==> s.txs[t].txid == t
    requires d in States.SpeedupRecords(s)
    ensures d.txid in Failures.Pending(s) <==> d.state.ToDispatch? && d.kind.Speedup?
  {}

  lemma CascadeOverStep(s: States.State, d: CoordinatedTx, ds: seq<CoordinatedTx>, height: BlockHeight)
    ensures Failures.CascadeOver(s, [d] + ds, height)
            == Failures.CascadeOver(Failures.FailAndCascade(s, d, height, true), ds, height)
  {
    assert ([d] + ds)[1..] == ds;
  }

  lemma CascadeEnds(s: States.State, settled: States.State, all: seq<CoordinatedTx>, t: Txid, height: BlockHeight)
    ensures Failures.CascadeOver(s, Failures.Victims(settled, all[|all|..], t), height) == s
  {}

  lemma SurvivorsStep(s: States.State, ops: seq<OutPoint>, i: nat)
    requires i < |ops|
    ensures Dispatching.Survivors(s, ops[i..])
            == (if ops[i].txid in s.txs && s.txs[ops[i].txid].state.Failed? then [] else [ops[i].txid])
               + Dispatching.Survivors(s, ops[i + 1..])
  {
    assert ops[i..][1..] == ops[i + 1..];
  }

  lemma SurvivorsEnd(s: States.State, ops: seq<OutPoint>)
    ensures Dispatching.Survivors(s, ops[|ops|..]) == []
  {}
}

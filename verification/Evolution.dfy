/** Transitions that keep every record's identity: which store keeps which clause of the invariant. */
module Evolution {
  import opened Types
  import opened States
  import opened Failures
  import opened Funding
  import opened Invariants

  /** Same transaction, same kind, same inputs: only lifecycle fields and marks may differ. */
  predicate SameShape(a: CoordinatedTx, b: CoordinatedTx) {
    && a.txid == b.txid
    && a.tx == b.tx
    && a.kind.Speedup? == b.kind.Speedup?
    && a.kind.NeedsSpeedup? == b.kind.NeedsSpeedup?
    && a.FundingInputs() == b.FundingInputs()
    && a.Claimed() == b.Claimed()
    && a.Parents() == b.Parents()
    && a.IsRBF() == b.IsRBF()
    && (a.IsRBF() ==> a.kind.speedup.predecessor == b.kind.speedup.predecessor)
    && a.IsFirstCpfp() == b.IsFirstCpfp()
    && SamePricing(a, b)
  }

  /** The parts of a speedup its fee was computed from. */
  predicate SamePricing(a: CoordinatedTx, b: CoordinatedTx) {
    a.kind.Speedup? && b.kind.Speedup? ==>
      && a.kind.speedup.context.bumpFeeUsed == b.kind.speedup.context.bumpFeeUsed
      && a.kind.speedup.context.parentVsizes == b.kind.speedup.context.parentVsizes
  }

  predicate SameRecord(a: FundingData, b: FundingData) {
    a.utxo == b.utxo && a.fromSpeedup == b.fromSpeedup
  }

  /** No record or queue entry appears, disappears or changes shape; Finalized is never left. */
  ghost predicate Evolves(s: State, s': State) {
    && s'.txs.Keys == s.txs.Keys
    && s'.speedups == s.speedups
    && s'.lineage == s.lineage
    && s'.queue == s.queue
    && s'.funding.Keys == s.funding.Keys
    && (forall t :: t in s.txs ==> SameShape(s.txs[t], s'.txs[t]))
    && (forall t :: t in s.txs && s.txs[t].state.Finalized? ==> s'.txs[t].state.Finalized?)
    && (forall op :: op in s.funding ==> SameRecord(s.funding[op], s'.funding[op]))
  }

  lemma EvolvesTransitive(a: State, b: State, c: State)
    requires Evolves(a, b) && Evolves(b, c)
    ensures Evolves(a, c)
  {
    forall t | t in a.txs ensures SameShape(a.txs[t], c.txs[t]) {
      assert SameShape(a.txs[t], b.txs[t]) && SameShape(b.txs[t], c.txs[t]);
    }
    forall op | op in a.funding ensures SameRecord(a.funding[op], c.funding[op]) {
      assert SameRecord(a.funding[op], b.funding[op]) && SameRecord(b.funding[op], c.funding[op]);
    }
  }

  lemma EvolvesReflexive(s: State)
    ensures Evolves(s, s)
  {}

  lemma SameShapeReflexive(r: CoordinatedTx)
    ensures SameShape(r, r)
  {}

  lemma SameShapeSupersedes(a: CoordinatedTx, b: CoordinatedTx, x: Txid)
    requires SameShape(a, b)
    ensures a.Supersedes(x) == b.Supersedes(x)
    ensures a.kind.Speedup? == b.kind.Speedup?
  {}

  lemma PutEvolves(s: State, t: Txid, r: CoordinatedTx)
    requires t in s.txs && SameShape(s.txs[t], r)
    requires s.txs[t].state.Finalized? ==> r.state.Finalized?
    ensures Evolves(s, Put(s, t, r))
  {
    hide SameShape;
    forall x | x in s.txs ensures SameShape(s.txs[x], Put(s, t, r).txs[x]) {
      SameShapeReflexive(s.txs[x]);
    }
  }

  /** The vocabulary built on shapes reads the same before and after. */
  lemma EvolvesReadsSame(s: State, s': State)
    requires Evolves(s, s')
    ensures forall t :: IsSpeedup(s', t) == IsSpeedup(s, t)
    ensures forall t, op :: Uses(s', t, op) == Uses(s, t, op)
    ensures forall t, op :: Claims(s', t, op) == Claims(s, t, op)
    ensures forall x, y :: Ancestor(s', x, y) == Ancestor(s, x, y)
    ensures forall r, t :: Supersedes(s', r, t) == Supersedes(s, r, t)
  {
    assert forall t :: t in s.txs ==> SameShape(s.txs[t], s'.txs[t]);
  }

  lemma EvolvesKeepsLists(s: State, s': State)
    requires KeysOk(s) && ListOk(s) && LineageOk(s) && OrderOk(s) && ChangeOk(s) && Evolves(s, s')
    ensures KeysOk(s') && ListOk(s') && LineageOk(s') && OrderOk(s') && ChangeOk(s')
  {
    EvolvesReadsSame(s, s');
    assert forall t :: t in s.txs ==> SameShape(s.txs[t], s'.txs[t]);
    forall i, j | 0 <= i < j < |s'.speedups| ensures !Ancestor(s', s'.speedups[j], s'.speedups[i]) {
      assert !Ancestor(s, s.speedups[j], s.speedups[i]);
    }
  }

  lemma EvolvesKeepsInputs(s: State, s': State)
    requires RbfOk(s) && InputsOk(s) && Evolves(s, s')
    ensures RbfOk(s') && InputsOk(s')
  {
    EvolvesReadsSame(s, s');
    forall t | IsSpeedup(s', t) ensures ChainEnds(s', t) && InputsOf(s', t) && InheritsInputs(s', t) {
      assert SameShape(s.txs[t], s'.txs[t]);
      assert IsSpeedup(s, t);
      assert ChainEnds(s, t) && InputsOf(s, t) && InheritsInputs(s, t);
    }
  }

  lemma EvolvesKeepsQueue(s: State, s': State)
    requires QueueOk(s) && Evolves(s, s')
    ensures QueueOk(s')
  {
    forall op | op in s'.funding ensures RecordOk(s', op) {
      assert RecordOk(s, op) && SameRecord(s.funding[op], s'.funding[op]);
    }
  }

  lemma EvolvesKeepsStructure(s: State, s': State)
    requires Structure(s) && Evolves(s, s')
    ensures Structure(s')
  {
    hide Evolves, KeysOk, ListOk, LineageOk, RbfOk, OrderOk, InputsOk, ChangeOk, QueueOk;
    EvolvesKeepsLists(s, s');
    EvolvesKeepsInputs(s, s');
    EvolvesKeepsQueue(s, s');
  }

  // ---------------------------------------------------------------- ancestry

  /** Ancestry is ranked by chain length, hence irreflexive and acyclic. */
  lemma AncestorRank(s: State, x: Txid, y: Txid)
    requires LineageOk(s) && Ancestor(s, x, y)
    ensures x in s.lineage && |s.lineage[x]| < |s.lineage[y]|
    ensures forall z :: Ancestor(s, z, x) ==> Ancestor(s, z, y)
  {
    var i :| 0 <= i < |s.lineage[y]| && s.lineage[y][i] == x;
    assert s.lineage[x] == s.lineage[y][..i];
  }

  lemma SupersededIsAncestor(s: State, r: Txid, p: Txid)
    requires LineageOk(s) && RbfOk(s) && IsSpeedup(s, r) && Supersedes(s, r, p)
    ensures Ancestor(s, p, r)
    ensures s.lineage[p] + [p] == s.lineage[r]
  {
    assert ChainEnds(s, r);
    var n := |s.lineage[r]| - 1;
    assert s.lineage[r][n] == p && s.lineage[p] == s.lineage[r][..n];
  }

  /** An unreplaced RBF is the last live member of its lineage: its predecessor has no other live descendant. */
  lemma UnmaskedIsNewest(s: State, t: Txid, x: Txid, y: Txid)
    requires Structure(s) && Reservations(s)
    requires Live(s, t) && !Masked(s, t) && Supersedes(s, t, x) && Live(s, x) && Live(s, y) && Ancestor(s, x, y)
    ensures y == t
  {
    if y != t {
      SupersededIsAncestor(s, t, x);
      assert InputsOf(s, x);
      var op := s.txs[x].FundingInputs()[0].op;
      assert Uses(s, x, op);
      assert Uses(s, t, op) && Uses(s, y, op);
      assert !Ancestor(s, t, y);
      assert Ancestor(s, y, t);
      AncestorRank(s, x, y);
      if y == x {
        assert false;
      }
      assert y in s.lineage[x];
      AncestorRank(s, y, x);
    }
  }

  // ---------------------------------------------------------------- writing one record

  /** A record write that follows the lifecycle and forgets no mark. */
  ghost predicate WriteOk(s: State, t: Txid, r: CoordinatedTx) {
    && t in s.txs
    && SameShape(s.txs[t], r)
    && r.IsBeingReplaced() == s.txs[t].IsBeingReplaced()
    && (s.txs[t].IsSpent() ==> r.IsSpent())
    && s.txs[t].state.CanTransitionTo(r.state)
    && (IsSpeedup(s, t) && r.state.ToDispatch? ==> !Masked(s, t))
    && (s.txs[t].state.ToDispatch? && r.state.OnNode() ==>
          forall p :: Supersedes(s, t, p) && Live(s, p) ==> s.txs[p].IsBeingReplaced())
    && LifeOf(r)
    && (s.txs[t].broadcastBlockHeight.Some? ==> r.broadcastBlockHeight.Some?)
  }

  lemma WriteEvolves(s: State, t: Txid, r: CoordinatedTx)
    requires WriteOk(s, t, r)
    ensures Evolves(s, Put(s, t, r))
    ensures forall x :: Live(Put(s, t, r), x) ==> Live(s, x)
    ensures forall x :: x in s.txs ==> Put(s, t, r).txs[x].IsBeingReplaced() == s.txs[x].IsBeingReplaced()
  {
    PutEvolves(s, t, r);
    hide Evolves;
  }

  lemma WriteKeepsSharing(s: State, t: Txid, r: CoordinatedTx)
    requires SharingOk(s) && InheritOk(s) && ReservedOk(s) && WriteOk(s, t, r)
    ensures SharingOk(Put(s, t, r)) && InheritOk(Put(s, t, r)) && ReservedOk(Put(s, t, r))
  {
    var s' := Put(s, t, r);
    WriteEvolves(s, t, r);
    EvolvesReadsSame(s, s');
    hide SameShape, Evolves;
    forall x, op | Live(s', x) && Uses(s', x, op) ensures Reserved(s', op) {
      assert Live(s, x) && Uses(s, x, op);
      assert Reserved(s, op);
    }
  }

  /** A superseder that stops being live either left its mark or was the newest of its lineage. */
  lemma WriteKeepsMasked(s: State, t: Txid, r: CoordinatedTx, x: Txid, y: Txid)
    requires Structure(s) && Reservations(s) && WriteOk(s, t, r)
    requires Live(Put(s, t, r), x) && Live(Put(s, t, r), y) && Ancestor(s, x, y)
    ensures Masked(Put(s, t, r), x)
  {
    hide SameShape, Evolves, Structure, SharingOk, InheritOk, ReservedOk, LifeOf;
    var s' := Put(s, t, r);
    WriteEvolves(s, t, r);
    assert Live(s, x) && Live(s, y);
    assert Masked(s, x);
    if !s.txs[x].IsBeingReplaced() {
      var z :| z in s.speedups && Live(s, z) && Supersedes(s, z, x);
      if z == t && r.state.Failed? {
        assert Waiting(s, t);
        UnmaskedIsNewest(s, t, x, y);
      } else {
        SameShapeSupersedes(s.txs[t], r, x);
        assert Supersedes(s', z, x);
        assert z in s'.speedups && Live(s', z);
      }
    }
  }

  lemma WriteKeepsMarks(s: State, t: Txid, r: CoordinatedTx)
    requires WaitingOk(s) && MarkOk(s) && WriteOk(s, t, r)
    ensures WaitingOk(Put(s, t, r)) && MarkOk(Put(s, t, r))
  {
    var s' := Put(s, t, r);
    WriteEvolves(s, t, r);
    EvolvesReadsSame(s, s');
    hide SameShape, Evolves;
    forall x | Waiting(s', x) ensures !Masked(s', x) {
      assert Waiting(s, x) || x == t;
      assert !Masked(s, x);
    }
    forall x, p | Live(s', x) && !Waiting(s', x) && Supersedes(s', x, p) && Live(s', p)
      ensures s'.txs[p].IsBeingReplaced()
    {
      assert Live(s, x) && Supersedes(s, x, p) && Live(s, p);
    }
  }

  lemma WriteKeepsRecords(s: State, t: Txid, r: CoordinatedTx)
    requires LifecycleOk(s) && ParentsOk(s) && OnePrebuilt(s) && WriteOk(s, t, r)
    ensures LifecycleOk(Put(s, t, r)) && ParentsOk(Put(s, t, r)) && OnePrebuilt(Put(s, t, r))
  {
    forall x | Prebuilt(Put(s, t, r), x) ensures Prebuilt(s, x) {
      assert LifeOf(s.txs[x]);
    }
  }

  lemma WriteKeepsInv(s: State, t: Txid, r: CoordinatedTx)
    requires Inv(s) && WriteOk(s, t, r)
    ensures Inv(Put(s, t, r))
    ensures Evolves(s, Put(s, t, r))
  {
    var s' := Put(s, t, r);
    WriteEvolves(s, t, r);
    EvolvesReadsSame(s, s');
    hide Evolves, WriteOk, Structure, SharingOk, InheritOk, WaitingOk, MarkOk, ReservedOk;
    hide LifecycleOk, ParentsOk, OnePrebuilt, Masked, Live;
    EvolvesKeepsStructure(s, s');
    WriteKeepsSharing(s, t, r);
    WriteKeepsMarks(s, t, r);
    WriteKeepsRecords(s, t, r);
    forall x, y | Live(s', x) && Live(s', y) && Ancestor(s', x, y) ensures Masked(s', x) {
      WriteKeepsMasked(s, t, r, x, y);
    }
  }

  // ---------------------------------------------------------------- spent marks

  /** No live speedup relies on the mark that `op` resolves to. */
  ghost predicate Releasable(s: State, op: OutPoint) {
    forall x, o :: Live(s, x) && Uses(s, x, o) ==> o != op && !(o.txid == op.txid && op.txid in s.speedups)
  }

  /** Two states that differ only in marks: same records up to `spent` and `replacedBy`. */
  ghost predicate OnlyMarksDiffer(s: State, s': State) {
    && Evolves(s, s')
    && s'.psp == s.psp
    && (forall t :: t in s.txs ==>
          && s'.txs[t].state == s.txs[t].state
          && s'.txs[t].settledBlockHeight == s.txs[t].settledBlockHeight
          && s'.txs[t].broadcastBlockHeight == s.txs[t].broadcastBlockHeight
          && s'.txs[t].failGuardUntil == s.txs[t].failGuardUntil
          && s'.txs[t].feeInfo == s.txs[t].feeInfo
          && s'.txs[t].retryCount == s.txs[t].retryCount)
  }

  lemma MarksKeepSharing(s: State, s': State)
    requires SharingOk(s) && InheritOk(s) && OnlyMarksDiffer(s, s')
    ensures SharingOk(s') && InheritOk(s')
    ensures forall t :: Live(s', t) == Live(s, t)
    ensures forall t :: Waiting(s', t) == Waiting(s, t)
  {
    EvolvesReadsSame(s, s');
  }

  lemma MarksKeepRecords(s: State, s': State)
    requires LifecycleOk(s) && ParentsOk(s) && OnePrebuilt(s) && OnlyMarksDiffer(s, s')
    ensures LifecycleOk(s') && ParentsOk(s') && OnePrebuilt(s')
  {
    forall t | t in s.txs
      ensures LifeOf(s'.txs[t]) && SameShape(s.txs[t], s'.txs[t]) && Prebuilt(s', t) == Prebuilt(s, t)
    {
      assert LifeOf(s.txs[t]);
    }
  }

  lemma MarksKeepTheRest(s: State, s': State)
    requires Inv(s) && OnlyMarksDiffer(s, s')
    ensures Structure(s') && SharingOk(s') && InheritOk(s') && LifecycleOk(s') && ParentsOk(s') && OnePrebuilt(s')
    ensures forall t :: Live(s', t) == Live(s, t)
    ensures forall t :: Waiting(s', t) == Waiting(s, t)
  {
    hide Structure, SharingOk, InheritOk, LifecycleOk, ParentsOk, OnePrebuilt;
    EvolvesKeepsStructure(s, s');
    MarksKeepSharing(s, s');
    MarksKeepRecords(s, s');
  }

  lemma MarksKeepShape(r: CoordinatedTx, spent: bool, mark: Option<Txid>)
    requires r.kind.Speedup?
    ensures SameShape(r, r.WithContext(r.kind.speedup.context.(spent := spent)))
    ensures SameShape(r, r.WithContext(r.kind.speedup.context.(replacedBy := mark)))
  {}

  lemma MarkSpeedupFrame(s: State, t: Txid, c: SpeedupContext)
    requires IsSpeedup(s, t)
    requires SameShape(s.txs[t], s.txs[t].WithContext(c))
    ensures OnlyMarksDiffer(s, Put(s, t, s.txs[t].WithContext(c)))
  {
    hide SameShape, Evolves;
    PutEvolves(s, t, s.txs[t].WithContext(c));
  }

  lemma MarkRecordFrame(s: State, op: OutPoint, spent: bool)
    requires op in s.funding
    ensures OnlyMarksDiffer(s, s.(funding := s.funding[op := s.funding[op].(spent := spent)]))
  {
    hide SameShape;
    forall x | x in s.txs ensures SameShape(s.txs[x], s.txs[x]) {
      SameShapeReflexive(s.txs[x]);
    }
  }

  lemma SetSpentFrame(s: State, op: OutPoint, spent: bool)
    ensures OnlyMarksDiffer(s, SetSpent(s, op, spent))
    ensures forall t :: t in s.txs ==> SetSpent(s, op, spent).txs[t].IsBeingReplaced() == s.txs[t].IsBeingReplaced()
  {
    hide SameShape, Evolves;
    if op in s.funding {
      MarkRecordFrame(s, op, spent);
    } else if IsSpeedup(s, op.txid) {
      MarksKeepShape(s.txs[op.txid], spent, None);
      MarkSpeedupFrame(s, op.txid, s.txs[op.txid].kind.speedup.context.(spent := spent));
    } else {
      EvolvesReflexive(s);
    }
  }

  /** The replacement clauses read states, shapes and `replacedBy` only. */
  lemma SpentMarksKeepMasks(s: State, s': State)
    requires MaskOk(s) && WaitingOk(s) && MarkOk(s) && OnlyMarksDiffer(s, s')
    requires forall t :: t in s.txs ==> s'.txs[t].IsBeingReplaced() == s.txs[t].IsBeingReplaced()
    ensures MaskOk(s') && WaitingOk(s') && MarkOk(s')
  {
    EvolvesReadsSame(s, s');
    assert forall t :: Live(s', t) == Live(s, t);
    forall t ensures Masked(s', t) == Masked(s, t) {
      if t in s.txs && !s.txs[t].IsBeingReplaced() {
        assert forall r :: (r in s'.speedups && Live(s', r) && Supersedes(s', r, t))
                           == (r in s.speedups && Live(s, r) && Supersedes(s, r, t));
      }
    }
  }

  lemma SetSpentReads(s: State, op: OutPoint, spent: bool)
    ensures forall x :: Live(SetSpent(s, op, spent), x) ==> Live(s, x)
    ensures forall x, o :: Uses(SetSpent(s, op, spent), x, o) ==> Uses(s, x, o)
  {
    SetSpentFrame(s, op, spent);
    EvolvesReadsSame(s, SetSpent(s, op, spent));
    hide Evolves, SameShape;
  }

  lemma SetSpentKeepsMark(s: State, op: OutPoint, spent: bool, o: OutPoint)
    requires Reserved(s, o)
    requires !spent ==> o != op && !(o.txid == op.txid && op.txid in s.speedups)
    ensures Reserved(SetSpent(s, op, spent), o)
  {}

  lemma SetSpentKeepsReserved(s: State, op: OutPoint, spent: bool)
    requires ReservedOk(s)
    requires !spent ==> Releasable(s, op)
    ensures ReservedOk(SetSpent(s, op, spent))
  {
    hide SetSpent, Live, Uses, Reserved;
    var s' := SetSpent(s, op, spent);
    SetSpentReads(s, op, spent);
    forall x, o | Live(s', x) && Uses(s', x, o) ensures Reserved(s', o) {
      SetSpentKeepsMark(s, op, spent, o);
    }
  }

  lemma SetSpentKeepsInv(s: State, op: OutPoint, spent: bool)
    requires Inv(s)
    requires !spent ==> Releasable(s, op)
    ensures Inv(SetSpent(s, op, spent))
    ensures OnlyMarksDiffer(s, SetSpent(s, op, spent))
  {
    hide Structure, SharingOk, InheritOk, MaskOk, WaitingOk, MarkOk, ReservedOk, LifecycleOk, ParentsOk, OnePrebuilt;
    hide SetSpent, OnlyMarksDiffer;
    var s' := SetSpent(s, op, spent);
    SetSpentFrame(s, op, spent);
    MarksKeepTheRest(s, s');
    SpentMarksKeepMasks(s, s');
    SetSpentKeepsReserved(s, op, spent);
  }

  // ---------------------------------------------------------------- replacement marks

  lemma SetReplacedByFrame(s: State, p: Txid, mark: Option<Txid>)
    ensures OnlyMarksDiffer(s, SetReplacedBy(s, p, mark))
    ensures forall t :: t in s.txs ==> SetReplacedBy(s, p, mark).txs[t].IsSpent() == s.txs[t].IsSpent()
    ensures forall t :: t in s.txs && t != p ==> SetReplacedBy(s, p, mark).txs[t] == s.txs[t]
    ensures SetReplacedBy(s, p, mark).funding == s.funding
  {
    hide SameShape, Evolves;
    if IsSpeedup(s, p) {
      MarksKeepShape(s.txs[p], false, mark);
      MarkSpeedupFrame(s, p, s.txs[p].kind.speedup.context.(replacedBy := mark));
    } else {
      EvolvesReflexive(s);
    }
  }

  /** A mark may be set on a speedup that is not waiting, and cleared when no live descendant is left. */
  ghost predicate MarkChangeOk(s: State, p: Txid, mark: Option<Txid>) {
    && (mark.Some? ==> !Waiting(s, p))
    && (mark.None? && Live(s, p) ==> forall y :: Live(s, y) ==> !Ancestor(s, p, y))
  }

  lemma SetReplacedByReads(s: State, p: Txid, mark: Option<Txid>)
    ensures var s' := SetReplacedBy(s, p, mark);
      && s'.speedups == s.speedups
      && (forall t :: Live(s', t) == Live(s, t))
      && (forall t :: Waiting(s', t) == Waiting(s, t))
      && (forall x, y :: Ancestor(s', x, y) == Ancestor(s, x, y))
      && (forall r, t :: Supersedes(s', r, t) == Supersedes(s, r, t))
      && (forall t :: t in s.txs <==> t in s'.txs)
      && (forall t :: t in s.txs ==>
            s'.txs[t].IsBeingReplaced() == if t == p && IsSpeedup(s, p) then mark.Some? else s.txs[t].IsBeingReplaced())
  {
    SetReplacedByFrame(s, p, mark);
    EvolvesReadsSame(s, SetReplacedBy(s, p, mark));
    hide Evolves, SameShape;
  }

  lemma SetReplacedByKeepsMaskOk(s: State, p: Txid, mark: Option<Txid>)
    requires MaskOk(s) && MarkChangeOk(s, p, mark)
    ensures MaskOk(SetReplacedBy(s, p, mark))
  {
    hide SetReplacedBy, Live, Waiting, Ancestor, Supersedes;
    var s' := SetReplacedBy(s, p, mark);
    SetReplacedByReads(s, p, mark);
    forall x, y | Live(s', x) && Live(s', y) && Ancestor(s', x, y) ensures Masked(s', x) {
      assert Masked(s, x);
      if !s.txs[x].IsBeingReplaced() {
        var z :| z in s.speedups && Live(s, z) && Supersedes(s, z, x);
        assert z in s'.speedups && Live(s', z) && Supersedes(s', z, x);
      }
    }
  }

  lemma SetReplacedByKeepsWaiting(s: State, p: Txid, mark: Option<Txid>)
    requires WaitingOk(s) && MarkChangeOk(s, p, mark)
    ensures WaitingOk(SetReplacedBy(s, p, mark))
  {
    hide SetReplacedBy, Live, Waiting, Ancestor, Supersedes;
    var s' := SetReplacedBy(s, p, mark);
    SetReplacedByReads(s, p, mark);
    forall x | Masked(s', x) ensures !Waiting(s', x) {
      if !s'.txs[x].IsBeingReplaced() {
        var z :| z in s'.speedups && Live(s', z) && Supersedes(s', z, x);
        assert z in s.speedups && Live(s, z) && Supersedes(s, z, x);
        assert Masked(s, x);
      } else if s.txs[x].IsBeingReplaced() {
        assert Masked(s, x);
      }
    }
  }

  lemma SetReplacedByKeepsMarkOk(s: State, p: Txid, mark: Option<Txid>)
    requires LineageOk(s) && RbfOk(s) && MarkOk(s) && MarkChangeOk(s, p, mark)
    ensures MarkOk(SetReplacedBy(s, p, mark))
  {
    hide SetReplacedBy, LineageOk, RbfOk;
    var s' := SetReplacedBy(s, p, mark);
    SetReplacedByReads(s, p, mark);
    forall x, q | Live(s', x) && !Waiting(s', x) && Supersedes(s', x, q) && Live(s', q)
      ensures s'.txs[q].IsBeingReplaced()
    {
      assert Live(s, x) && Supersedes(s, x, q) && Live(s, q);
      SupersededIsAncestor(s, x, q);
    }
  }

  lemma SetReplacedByKeepsMasks(s: State, p: Txid, mark: Option<Txid>)
    requires LineageOk(s) && RbfOk(s) && MaskOk(s) && WaitingOk(s) && MarkOk(s) && MarkChangeOk(s, p, mark)
    ensures MaskOk(SetReplacedBy(s, p, mark)) && WaitingOk(SetReplacedBy(s, p, mark))
    ensures MarkOk(SetReplacedBy(s, p, mark))
  {
    hide SetReplacedBy, LineageOk, RbfOk, MaskOk, WaitingOk, MarkOk, MarkChangeOk;
    SetReplacedByKeepsMaskOk(s, p, mark);
    SetReplacedByKeepsWaiting(s, p, mark);
    SetReplacedByKeepsMarkOk(s, p, mark);
  }

  lemma SetReplacedByKeepsReserved(s: State, p: Txid, mark: Option<Txid>)
    requires ReservedOk(s)
    ensures ReservedOk(SetReplacedBy(s, p, mark))
  {
    var s' := SetReplacedBy(s, p, mark);
    SetReplacedByFrame(s, p, mark);
    EvolvesReadsSame(s, s');
    hide SameShape;
    forall x, o | Live(s', x) && Uses(s', x, o) ensures Reserved(s', o) {
      assert Live(s, x) && Uses(s, x, o);
      assert Reserved(s, o);
    }
  }

  lemma SetReplacedByKeepsInv(s: State, p: Txid, mark: Option<Txid>)
    requires Inv(s) && MarkChangeOk(s, p, mark)
    ensures Inv(SetReplacedBy(s, p, mark))
    ensures OnlyMarksDiffer(s, SetReplacedBy(s, p, mark))
  {
    hide KeysOk, ListOk, LineageOk, RbfOk, OrderOk, InputsOk, ChangeOk, QueueOk;
    hide SharingOk, InheritOk, MaskOk, WaitingOk, MarkOk, ReservedOk, LifecycleOk, ParentsOk, OnePrebuilt;
    hide SetReplacedBy, OnlyMarksDiffer, MarkChangeOk;
    SetReplacedByFrame(s, p, mark);
    MarksKeepTheRest(s, SetReplacedBy(s, p, mark));
    SetReplacedByKeepsMasks(s, p, mark);
    SetReplacedByKeepsReserved(s, p, mark);
  }

  // ---------------------------------------------------------------- pending parents and news

  /** The two states differ at most in news and in the pending-parents list. */
  predicate SameCore(s: State, s': State) {
    s' == s.(psp := s'.psp, news := s'.news)
  }

  lemma SameCoreFrame(s: State, s': State)
    requires SameCore(s, s')
    ensures Evolves(s, s')
    ensures forall t :: Live(s', t) == Live(s, t)
    ensures forall t :: Waiting(s', t) == Waiting(s, t)
    ensures forall t :: Prebuilt(s', t) == Prebuilt(s, t)
    ensures forall t :: Masked(s', t) == Masked(s, t)
    ensures forall op :: Reserved(s', op) == Reserved(s, op)
  {
    hide SameShape;
    forall t | t in s.txs ensures SameShape(s.txs[t], s'.txs[t]) {
      SameShapeReflexive(s.txs[t]);
    }
    forall t ensures Masked(s', t) == Masked(s, t) {
      assert forall r :: (r in s'.speedups && Live(s', r) && Supersedes(s', r, t))
                         == (r in s.speedups && Live(s, r) && Supersedes(s, r, t));
    }
  }

  lemma SameCoreKeepsReservations(s: State, s': State)
    requires Reservations(s) && SameCore(s, s')
    ensures Reservations(s')
  {
    SameCoreFrame(s, s');
    EvolvesReadsSame(s, s');
    hide Evolves, Masked, Reserved, Live, Waiting;
    assert SharingOk(s') && InheritOk(s');
    assert WaitingOk(s') && MaskOk(s');
    assert MarkOk(s') && ReservedOk(s');
  }

  lemma SameCoreKeepsInv(s: State, s': State)
    requires Inv(s) && SameCore(s, s')
    requires NoDup(s'.psp) && forall t :: t in s'.psp ==> t in s.txs && s.txs[t].kind.NeedsSpeedup?
    ensures Inv(s') && Evolves(s, s')
  {
    SameCoreFrame(s, s');
    hide Structure, Reservations, Evolves, Masked, Reserved, Live, Waiting, Prebuilt;
    EvolvesKeepsStructure(s, s');
    SameCoreKeepsReservations(s, s');
  }

  lemma NewsKeepsInv(s: State, n: News)
    requires Inv(s)
    ensures Inv(AddNews(s, n)) && Evolves(s, AddNews(s, n))
  {
    hide Structure, Reservations, LifecycleOk, OnePrebuilt, Evolves;
    SameCoreKeepsInv(s, AddNews(s, n));
  }
}

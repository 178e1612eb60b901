/** Transitions that add or remove records: building, evicting, cancelling, registering, funding. */
module GrowthLaws {
  import opened Types
  import opened States
  import opened Failures
  import opened Invariants
  import opened Evolution
  import opened FailureLaws

  // ---------------------------------------------------------------- inserting a speedup

  /** The txid has never been seen by this store. */
  ghost predicate FreshTxid(s: State, t: Txid) {
    && t !in s.txs
    && t !in s.lineage
    && (forall x, op :: Uses(s, x, op) ==> op.txid != t)
    && (forall op :: op in s.funding ==> op.txid != t)
  }

  /** Every input is reserved, and names a change output when it comes from a listed speedup. */
  ghost predicate InputsReady(s: State, r: CoordinatedTx) {
    && 1 <= |r.FundingInputs()| <= 2
    && (forall op :: op in Ops(r.FundingInputs()) ==>
          && Reserved(s, op)
          && op.txid != r.txid
          && (op.txid in s.speedups && op.txid in s.txs ==> op == s.txs[op.txid].ChangeOp()))
    && (|r.FundingInputs()| == 2 ==>
          r.FundingInputs()[0].op != r.FundingInputs()[1].op && r.FundingInputs()[1].op.txid !in s.lineage)
  }

  /** A CPFP starts a lineage; an RBF extends the lineage of a live, unreplaced predecessor. */
  ghost predicate Extends(s: State, r: CoordinatedTx, chain: seq<Txid>) {
    if r.IsRBF() then
      var p := r.kind.speedup.predecessor;
      && Live(s, p)
      && !Masked(s, p)
      && r.FundingInputs() == s.txs[p].FundingInputs() + r.Claimed()
      && p in s.lineage
      && chain == s.lineage[p] + [p]
    else chain == []
  }

  ghost predicate Insertable(s: State, r: CoordinatedTx, chain: seq<Txid>) {
    && FreshTxid(s, r.txid)
    && r.kind.Speedup?
    && r.state.ToDispatch?
    && LifeOf(r)
    && |r.tx.outputs| > 0
    && !r.IsBeingReplaced()
    && NoDup(r.Parents())
    && (forall x :: !Waiting(s, x))
    && InputsReady(s, r)
    && Extends(s, r, chain)
    && (forall x, op :: Live(s, x) && op in Ops(r.Claimed()) ==> !Uses(s, x, op))
  }

  /** How the vocabulary reads after an insertion. */
  lemma InsertReads(s: State, r: CoordinatedTx, chain: seq<Txid>)
    requires r.txid !in s.txs && r.txid !in s.lineage && r.kind.Speedup? && !r.state.Failed?
    ensures var s' := InsertSpeedup(s, r, chain);
      && (forall x :: IsSpeedup(s', x) <==> IsSpeedup(s, x) || x == r.txid)
      && (forall x :: Live(s', x) <==> Live(s, x) || x == r.txid)
      && (forall x, op :: Uses(s', x, op) <==> if x == r.txid then op in Ops(r.FundingInputs()) else Uses(s, x, op))
      && (forall x, op :: Claims(s', x, op) <==> if x == r.txid then op in Ops(r.Claimed()) else Claims(s, x, op))
      && (forall x, y :: Ancestor(s', x, y) <==> if y == r.txid then x in chain else Ancestor(s, x, y))
      && (forall x, y :: Supersedes(s', x, y) <==> if x == r.txid then r.Supersedes(y) else Supersedes(s, x, y))
  {}

  lemma InsertKeepsLists(s: State, r: CoordinatedTx, chain: seq<Txid>)
    requires Structure(s) && Insertable(s, r, chain)
    ensures var s' := InsertSpeedup(s, r, chain);
            KeysOk(s') && ListOk(s') && LineageOk(s') && OrderOk(s')
  {
    var s' := InsertSpeedup(s, r, chain);
    var t := r.txid;
    InsertReads(s, r, chain);
    hide InputsOk, ChangeOk, QueueOk, InputsReady, Masked;
    assert t !in s.speedups;
    assert ListOk(s') by {
      NoDupConcat(s.speedups, [t]);
    }
    assert LineageOk(s') by {
      forall y, i | y in s'.lineage && 0 <= i < |s'.lineage[y]|
        ensures s'.lineage[y][i] in s'.lineage && s'.lineage[s'.lineage[y][i]] == s'.lineage[y][..i]
      {
        if y == t {
          assert r.IsRBF();
          var p := r.kind.speedup.predecessor;
          if i < |s.lineage[p]| {
            assert chain[i] == s.lineage[p][i] && chain[..i] == s.lineage[p][..i];
          } else {
            assert chain[i] == p && chain[..i] == s.lineage[p];
          }
        } else {
          assert s.lineage[y][i] in s.lineage;
        }
      }
    }
    assert OrderOk(s') by {
      forall i, j | 0 <= i < j < |s'.speedups| ensures !Ancestor(s', s'.speedups[j], s'.speedups[i]) {
        assert s'.speedups[i] == s.speedups[i];
        if j < |s.speedups| {
          assert !Ancestor(s, s.speedups[j], s.speedups[i]);
        } else if Ancestor(s, t, s.speedups[i]) {
          AncestorRank(s, t, s.speedups[i]);
        }
      }
    }
  }

  lemma SupersededKnown(s: State, x: Txid, p: Txid)
    requires LineageOk(s) && RbfOk(s) && IsSpeedup(s, x) && Supersedes(s, x, p)
    ensures p in s.lineage
  {
    SupersededIsAncestor(s, x, p);
  }

  lemma InsertKeepsInputs(s: State, r: CoordinatedTx, chain: seq<Txid>)
    requires Structure(s) && Insertable(s, r, chain)
    ensures var s' := InsertSpeedup(s, r, chain);
            RbfOk(s') && InputsOk(s') && ChangeOk(s') && QueueOk(s')
  {
    var s' := InsertSpeedup(s, r, chain);
    var t := r.txid;
    InsertReads(s, r, chain);
    hide OrderOk, Masked;
    forall x | IsSpeedup(s', x) ensures ChainEnds(s', x) && InputsOf(s', x) && InheritsInputs(s', x) {
      if x == t {
        if r.IsRBF() {
          var p := r.kind.speedup.predecessor;
          assert InputsOf(s, p);
          assert r.FundingInputs()[|s.txs[p].FundingInputs()|..] == r.Claimed();
        }
      } else {
        assert ChainEnds(s, x) && InputsOf(s, x) && InheritsInputs(s, x);
        if s.txs[x].IsRBF() {
          SupersededKnown(s, x, s.txs[x].kind.speedup.predecessor);
        }
        if |s.txs[x].FundingInputs()| == 2 {
          assert Uses(s, x, s.txs[x].FundingInputs()[1].op);
        }
      }
    }
    forall op | op in s'.funding ensures RecordOk(s', op) {
      assert RecordOk(s, op);
    }
  }

  lemma InsertMasks(s: State, r: CoordinatedTx, chain: seq<Txid>)
    requires LineageOk(s) && RbfOk(s) && ListOk(s) && Insertable(s, r, chain)
    ensures var s' := InsertSpeedup(s, r, chain);
      && (forall x :: x in s.txs ==> (Masked(s', x) <==> Masked(s, x) || r.Supersedes(x)))
      && !Masked(s', r.txid)
  {
    var s' := InsertSpeedup(s, r, chain);
    InsertReads(s, r, chain);
    forall x | x in s.txs ensures Masked(s', x) <==> Masked(s, x) || r.Supersedes(x) {
      if r.Supersedes(x) {
        assert r.txid in s'.speedups && Live(s', r.txid) && Supersedes(s', r.txid, x);
      }
      if z :| z in s.speedups && Live(s, z) && Supersedes(s, z, x) {
        assert z in s'.speedups && Live(s', z) && Supersedes(s', z, x);
      }
    }
    if z :| z in s'.speedups && Live(s', z) && Supersedes(s', z, r.txid) {
      if z != r.txid {
        SupersededKnown(s, z, r.txid);
      }
    }
  }

  lemma ChainInherits(s: State, r: CoordinatedTx, chain: seq<Txid>, x: Txid, op: OutPoint)
    requires InheritOk(s) && Insertable(s, r, chain) && Live(s, x) && x in chain && Uses(s, x, op)
    ensures op in Ops(r.FundingInputs()) && op !in Ops(r.Claimed())
  {
    hide FreshTxid, InputsReady, Masked;
    var p := r.kind.speedup.predecessor;
    OpsPrefix(s.txs[p].FundingInputs(), r.Claimed());
    assert x == p || Ancestor(s, x, p);
    assert Uses(s, p, op);
  }

  lemma SharersAreChain(s: State, r: CoordinatedTx, chain: seq<Txid>, x: Txid, op: OutPoint)
    requires SharingOk(s) && MaskOk(s) && Insertable(s, r, chain)
    requires Live(s, x) && Uses(s, x, op) && op in Ops(r.FundingInputs())
    ensures x in chain
  {
    hide FreshTxid, InputsReady;
    if r.IsRBF() {
      var p := r.kind.speedup.predecessor;
      OpsPrefix(s.txs[p].FundingInputs(), r.Claimed());
      assert Uses(s, p, op);
      assert x == p || Ancestor(s, x, p) || Ancestor(s, p, x);
    }
  }

  lemma InsertKeepsSharing(s: State, r: CoordinatedTx, chain: seq<Txid>)
    requires LineageOk(s) && Reservations(s) && Insertable(s, r, chain)
    ensures var s' := InsertSpeedup(s, r, chain); SharingOk(s') && InheritOk(s')
  {
    var s' := InsertSpeedup(s, r, chain);
    InsertReads(s, r, chain);
    forall x, op | Live(s, x) && x in chain && Uses(s, x, op)
      ensures op in Ops(r.FundingInputs()) && op !in Ops(r.Claimed())
    {
      ChainInherits(s, r, chain, x, op);
    }
    forall x, op | Live(s, x) && Uses(s, x, op) && op in Ops(r.FundingInputs()) ensures x in chain {
      SharersAreChain(s, r, chain, x, op);
    }
    forall x ensures !Ancestor(s, r.txid, x) {
      if Ancestor(s, r.txid, x) {
        AncestorRank(s, r.txid, x);
      }
    }
    assert r.txid !in chain by {
      assert r.IsRBF() ==> !Ancestor(s, r.txid, r.kind.speedup.predecessor);
    }
    hide MaskOk, WaitingOk, MarkOk, ReservedOk, Insertable, LineageOk, Live, Uses, Claims, Ancestor;
    assert SharingOk(s');
    assert InheritOk(s');
  }

  lemma InsertKeepsReserved(s: State, r: CoordinatedTx, chain: seq<Txid>)
    requires ReservedOk(s) && Insertable(s, r, chain)
    ensures ReservedOk(InsertSpeedup(s, r, chain))
  {
    var s' := InsertSpeedup(s, r, chain);
    InsertReads(s, r, chain);
    forall x, op | Live(s', x) && Uses(s', x, op) ensures Reserved(s', op) {
      assert Reserved(s, op) && op.txid != r.txid;
    }
  }

  lemma InsertKeepsMasks(s: State, r: CoordinatedTx, chain: seq<Txid>)
    requires LineageOk(s) && RbfOk(s) && ListOk(s) && Reservations(s) && Insertable(s, r, chain)
    ensures var s' := InsertSpeedup(s, r, chain); MaskOk(s') && WaitingOk(s') && MarkOk(s')
  {
    var s' := InsertSpeedup(s, r, chain);
    InsertReads(s, r, chain);
    InsertMasks(s, r, chain);
    hide Masked, SharingOk, InheritOk, ReservedOk, InputsReady;
    forall x, y | Live(s', x) && Live(s', y) && Ancestor(s', x, y) ensures Masked(s', x) {
      if y == r.txid {
        var p := r.kind.speedup.predecessor;
        assert x == p || Ancestor(s, x, p);
      } else if x == r.txid {
        AncestorRank(s, x, y);
      }
    }
    forall x | Waiting(s', x) ensures !Masked(s', x) {
      assert x != r.txid ==> Waiting(s, x);
    }
    forall x, p | Live(s', x) && !Waiting(s', x) && Supersedes(s', x, p) && Live(s', p)
      ensures s'.txs[p].IsBeingReplaced()
    {
      assert x != r.txid;
      SupersededKnown(s, x, p);
      assert Live(s, x) && !Waiting(s, x) && Supersedes(s, x, p) && Live(s, p);
    }
  }

  lemma InsertKeepsRecords(s: State, r: CoordinatedTx, chain: seq<Txid>)
    requires LifecycleOk(s) && ParentsOk(s) && Insertable(s, r, chain)
    ensures var s' := InsertSpeedup(s, r, chain); LifecycleOk(s') && ParentsOk(s') && OnePrebuilt(s')
  {
    var s' := InsertSpeedup(s, r, chain);
    forall x | Prebuilt(s', x) ensures x == r.txid {
      assert !Waiting(s, x);
    }
  }

  lemma InsertKeepsInv(s: State, r: CoordinatedTx, chain: seq<Txid>)
    requires Inv(s) && Insertable(s, r, chain)
    ensures Inv(InsertSpeedup(s, r, chain))
  {
    InsertKeepsRecords(s, r, chain);
    InsertKeepsLists(s, r, chain);
    InsertKeepsInputs(s, r, chain);
    InsertKeepsSharing(s, r, chain);
    InsertKeepsReserved(s, r, chain);
    InsertKeepsMasks(s, r, chain);
    hide KeysOk, ListOk, LineageOk, RbfOk, OrderOk, InputsOk, ChangeOk, QueueOk, SharingOk, InheritOk, MaskOk;
    hide WaitingOk, MarkOk, ReservedOk, LifecycleOk, ParentsOk, OnePrebuilt, Insertable, InsertSpeedup;
  }

  lemma OpsPrefix(a: seq<Utxo>, b: seq<Utxo>)
    ensures Ops(a + b) == Ops(a) + Ops(b)
  {
    forall op | op in Ops(a) + Ops(b) ensures op in Ops(a + b) {
      if op in Ops(a) {
        var i :| 0 <= i < |a| && a[i].op == op;
        assert (a + b)[i].op == op;
      } else {
        var i :| 0 <= i < |b| && b[i].op == op;
        assert (a + b)[|a| + i].op == op;
      }
    }
    forall op | op in Ops(a + b) ensures op in Ops(a) + Ops(b) {
      var i :| 0 <= i < |a + b| && (a + b)[i].op == op;
      assert if i < |a| then a[i].op == op else b[i - |a|].op == op;
    }
  }

  // ---------------------------------------------------------------- removing records

  /** Only client records and terminal speedups go, and no pending parent with them. */
  ghost predicate Removable(s: State, gone: set<Txid>) {
    && (forall t :: t in gone && IsSpeedup(s, t) ==> s.txs[t].state.Terminal())
    && (forall t :: t in s.psp ==> t !in gone)
  }

  /** `retain` keeps the relative order. */
  lemma {:induction false} ExcludingOrder<T(!new)>(xs: seq<T>, gone: set<T>, i: int, j: int)
    requires 0 <= i < j < |Excluding(xs, gone)|
    ensures exists a, b :: 0 <= a < b < |xs| && xs[a] == Excluding(xs, gone)[i] && xs[b] == Excluding(xs, gone)[j]
  {
    var rest := Excluding(xs[1..], gone);
    if xs[0] in gone {
      ExcludingOrder(xs[1..], gone, i, j);
      var a, b :| 0 <= a < b < |xs[1..]| && xs[1..][a] == rest[i] && xs[1..][b] == rest[j];
      assert xs[a + 1] == rest[i] && xs[b + 1] == rest[j];
    } else if i == 0 {
      assert rest[j - 1] in rest;
      var b :| 0 <= b < |xs[1..]| && xs[1..][b] == rest[j - 1];
      assert xs[0] == Excluding(xs, gone)[0] && xs[b + 1] == Excluding(xs, gone)[j];
    } else {
      ExcludingOrder(xs[1..], gone, i - 1, j - 1);
      var a, b :| 0 <= a < b < |xs[1..]| && xs[1..][a] == rest[i - 1] && xs[1..][b] == rest[j - 1];
      assert xs[a + 1] == rest[i - 1] && xs[b + 1] == rest[j - 1];
    }
  }

  lemma RemoveReads(s: State, gone: set<Txid>)
    ensures var s' := RemoveTxs(s, gone);
      && (forall x :: IsSpeedup(s', x) <==> IsSpeedup(s, x) && x !in gone)
      && (forall x :: Live(s', x) <==> Live(s, x) && x !in gone)
      && (forall x, op :: Uses(s', x, op) <==> Uses(s, x, op) && x !in gone)
      && (forall x, op :: Claims(s', x, op) <==> Claims(s, x, op) && x !in gone)
      && (forall x, y :: Ancestor(s', x, y) <==> Ancestor(s, x, y))
      && (forall x, y :: Supersedes(s', x, y) <==> Supersedes(s, x, y) && x !in gone)
  {}

  lemma RemoveKeepsLists(s: State, gone: set<Txid>)
    requires KeysOk(s) && ListOk(s) && LineageOk(s) && OrderOk(s) && ChangeOk(s)
    ensures var s' := RemoveTxs(s, gone); KeysOk(s') && ListOk(s') && LineageOk(s') && OrderOk(s') && ChangeOk(s')
  {
    var s' := RemoveTxs(s, gone);
    RemoveReads(s, gone);
    ExcludingNoDup(s.speedups, gone);
    forall i, j | 0 <= i < j < |s'.speedups| ensures !Ancestor(s', s'.speedups[j], s'.speedups[i]) {
      ExcludingOrder(s.speedups, gone, i, j);
      var a, b :| 0 <= a < b < |s.speedups| && s.speedups[a] == s'.speedups[i] && s.speedups[b] == s'.speedups[j];
      assert !Ancestor(s, s.speedups[b], s.speedups[a]);
    }
  }

  lemma RemoveKeepsInputs(s: State, gone: set<Txid>)
    requires RbfOk(s) && InputsOk(s) && QueueOk(s)
    ensures var s' := RemoveTxs(s, gone); RbfOk(s') && InputsOk(s') && QueueOk(s')
  {
    var s' := RemoveTxs(s, gone);
    RemoveReads(s, gone);
    forall x | IsSpeedup(s', x) ensures ChainEnds(s', x) && InputsOf(s', x) && InheritsInputs(s', x) {
      assert ChainEnds(s, x) && InputsOf(s, x) && InheritsInputs(s, x);
    }
    forall op | op in s'.funding ensures RecordOk(s', op) {
      assert RecordOk(s, op);
    }
  }

  lemma RemoveKeepsReservations(s: State, gone: set<Txid>)
    requires Reservations(s) && Removable(s, gone)
    ensures Reservations(RemoveTxs(s, gone))
  {
    var s' := RemoveTxs(s, gone);
    RemoveReads(s, gone);
    forall x | Masked(s', x) ensures Masked(s, x) {
      if z :| z in s'.speedups && Live(s', z) && Supersedes(s', z, x) {
        assert z in s.speedups && Live(s, z) && Supersedes(s, z, x);
      }
    }
    assert WaitingOk(s') by {
      forall x | Waiting(s', x) ensures !Masked(s', x) {
        assert Waiting(s, x);
      }
    }
    assert SharingOk(s') && InheritOk(s');
    assert MaskOk(s') by {
      forall x, y | Live(s', x) && Live(s', y) && Ancestor(s', x, y) ensures Masked(s', x) {
        assert Masked(s, x);
        if !s.txs[x].IsBeingReplaced() {
          var z :| z in s.speedups && Live(s, z) && Supersedes(s, z, x);
          assert z !in gone;
          assert z in s'.speedups && Live(s', z) && Supersedes(s', z, x);
        }
      }
    }
    assert MarkOk(s') by {
      forall x, p | Live(s', x) && !Waiting(s', x) && Supersedes(s', x, p) && Live(s', p)
        ensures s'.txs[p].IsBeingReplaced()
      {
        assert Live(s, x) && !Waiting(s, x) && Supersedes(s, x, p) && Live(s, p);
      }
    }
    forall x, op | Live(s', x) && Uses(s', x, op) ensures Reserved(s', op) {
      assert Reserved(s, op);
    }
  }

  lemma RemoveKeepsInv(s: State, gone: set<Txid>)
    requires Inv(s) && Removable(s, gone)
    ensures Inv(RemoveTxs(s, gone))
  {
    RemoveKeepsLists(s, gone);
    RemoveKeepsInputs(s, gone);
    RemoveKeepsReservations(s, gone);
    RemoveKeepsRecords(s, gone);
    hide KeysOk, ListOk, LineageOk, RbfOk, OrderOk, InputsOk, ChangeOk, QueueOk, Reservations;
    hide LifecycleOk, ParentsOk, OnePrebuilt, Removable, RemoveTxs;
  }

  lemma RemoveKeepsRecords(s: State, gone: set<Txid>)
    requires LifecycleOk(s) && ParentsOk(s) && OnePrebuilt(s) && Removable(s, gone)
    ensures var s' := RemoveTxs(s, gone); LifecycleOk(s') && ParentsOk(s') && OnePrebuilt(s')
  {
    forall x | Prebuilt(RemoveTxs(s, gone), x) ensures Prebuilt(s, x) {}
  }

  lemma NewsSetKeepsInv(s: State, news: set<News>)
    requires Inv(s)
    ensures Inv(s.(news := news)) && Evolves(s, s.(news := news))
  {
    hide Structure, Reservations, LifecycleOk, OnePrebuilt, Evolves;
    SameCoreKeepsInv(s, s.(news := news));
  }

  lemma EvictKeepsInv(s: State, height: BlockHeight, maxTracking: nat)
    requires Inv(s)
    ensures Inv(EvictStaleTxs(s, height, maxTracking))
  {
    var gone := StaleTxs(s, height, maxTracking);
    assert Removable(s, gone) by {
      hide Structure, Reservations, LifecycleOk, OnePrebuilt;
    }
    hide Inv, Evolves, Evictable;
    RemoveKeepsInv(s, gone);
    NewsSetKeepsInv(RemoveTxs(s, gone), s.news + EvictionNews(gone));
  }

  lemma RemovePendingKeepsInv(s: State, gone: set<Txid>)
    requires Inv(s)
    ensures Inv(RemovePending(s, gone)) && Evolves(s, RemovePending(s, gone))
  {
    hide Structure, Reservations, LifecycleOk, OnePrebuilt, Evolves;
    ExcludingNoDup(s.psp, gone);
    SameCoreKeepsInv(s, RemovePending(s, gone));
  }

  // ---------------------------------------------------------------- registering and funding

  /** The coordinator never built this transaction itself. */
  predicate ClientTxid(s: State, t: Txid) {
    t !in s.lineage
  }

  lemma RegisterReads(s: State, t: Txid, r: CoordinatedTx)
    requires t !in s.txs && t !in s.lineage && !r.kind.Speedup?
    ensures var s' := Put(s, t, r);
      && (forall x :: IsSpeedup(s', x) == IsSpeedup(s, x))
      && (forall x :: Live(s', x) == Live(s, x))
      && (forall x, op :: Uses(s', x, op) == Uses(s, x, op))
      && (forall x, op :: Claims(s', x, op) == Claims(s, x, op))
      && (forall x, y :: Ancestor(s', x, y) == Ancestor(s, x, y))
      && (forall x, y :: Supersedes(s', x, y) == Supersedes(s, x, y))
  {}

  lemma RegisterKeepsStructure(s: State, t: Txid, r: CoordinatedTx)
    requires Structure(s) && t !in s.txs && t !in s.lineage && !r.kind.Speedup? && r.txid == t
    ensures Structure(Put(s, t, r))
  {
    var s' := Put(s, t, r);
    RegisterReads(s, t, r);
    assert KeysOk(s') && ListOk(s') && LineageOk(s');
    assert OrderOk(s') by {
      forall i, j | 0 <= i < j < |s'.speedups| ensures !Ancestor(s', s'.speedups[j], s'.speedups[i]) {
        assert !Ancestor(s, s.speedups[j], s.speedups[i]);
      }
    }
    forall x | IsSpeedup(s', x) ensures ChainEnds(s', x) && InputsOf(s', x) && InheritsInputs(s', x) {
      assert ChainEnds(s, x) && InputsOf(s, x) && InheritsInputs(s, x);
    }
    assert ChangeOk(s') by {
      forall x, op | Uses(s', x, op) && op.txid in s'.speedups && op.txid in s'.txs ensures op == s'.txs[op.txid].ChangeOp() {
        assert Uses(s, x, op);
        assert IsSpeedup(s, op.txid);
      }
    }
    forall op | op in s'.funding ensures RecordOk(s', op) {
      assert RecordOk(s, op);
    }
  }

  lemma RegisterKeepsReservations(s: State, t: Txid, r: CoordinatedTx)
    requires Reservations(s) && ListOk(s) && t !in s.txs && t !in s.lineage && !r.kind.Speedup?
    ensures Reservations(Put(s, t, r))
  {
    var s' := Put(s, t, r);
    RegisterReads(s, t, r);
    forall x | x in s.txs ensures Masked(s', x) == Masked(s, x) {
      assert forall z :: (z in s'.speedups && Live(s', z) && Supersedes(s', z, x))
                         == (z in s.speedups && Live(s, z) && Supersedes(s, z, x));
    }
    assert SharingOk(s') && InheritOk(s');
    assert MaskOk(s') by {
      forall x, y | Live(s', x) && Live(s', y) && Ancestor(s', x, y) ensures Masked(s', x) {
        assert Masked(s, x);
      }
    }
    assert WaitingOk(s') by {
      forall x | Waiting(s', x) ensures !Masked(s', x) {
        assert Waiting(s, x);
      }
    }
    assert MarkOk(s') by {
      forall x, p | Live(s', x) && !Waiting(s', x) && Supersedes(s', x, p) && Live(s', p)
        ensures s'.txs[p].IsBeingReplaced()
      {
        assert Live(s, x) && !Waiting(s, x) && Supersedes(s, x, p) && Live(s, p);
      }
    }
    forall x, op | Live(s', x) && Uses(s', x, op) ensures Reserved(s', op) {
      assert Reserved(s, op);
      assert op.txid in s.speedups ==> IsSpeedup(s, op.txid);
    }
  }

  lemma RegisterKeepsInv(s: State, t: Txid, r: CoordinatedTx)
    requires Inv(s) && t !in s.txs && t !in s.lineage && !r.kind.Speedup? && r.txid == t && LifeOf(r)
    ensures Inv(Put(s, t, r))
  {
    RegisterKeepsStructure(s, t, r);
    RegisterKeepsReservations(s, t, r);
    hide Structure, Reservations;
    forall x | Prebuilt(Put(s, t, r), x) ensures Prebuilt(s, x) {}
  }

  /** The outpoint is new: no record, no user, and no speedup produced it. */
  ghost predicate FreshOutpoint(s: State, op: OutPoint) {
    && op !in s.funding
    && op.txid !in s.lineage
    && (forall x :: !Uses(s, x, op))
  }

  lemma AppendReads(s: State, utxo: Utxo)
    ensures var s' := AppendFunding(s, utxo);
      && (forall x :: IsSpeedup(s', x) == IsSpeedup(s, x))
      && (forall x :: Live(s', x) == Live(s, x))
      && (forall x :: Waiting(s', x) == Waiting(s, x))
      && (forall x :: Prebuilt(s', x) == Prebuilt(s, x))
      && (forall x, op :: Uses(s', x, op) == Uses(s, x, op))
      && (forall x, op :: Claims(s', x, op) == Claims(s, x, op))
      && (forall x, y :: Ancestor(s', x, y) == Ancestor(s, x, y))
      && (forall x, y :: Supersedes(s', x, y) == Supersedes(s, x, y))
      && (forall x :: Masked(s', x) == Masked(s, x))
  {
    var s' := AppendFunding(s, utxo);
    forall x ensures Masked(s', x) == Masked(s, x) {
      assert forall z :: (z in s'.speedups && Live(s', z) && Supersedes(s', z, x))
                         == (z in s.speedups && Live(s, z) && Supersedes(s, z, x));
    }
  }

  lemma AppendKeepsStructure(s: State, utxo: Utxo)
    requires Structure(s) && FreshOutpoint(s, utxo.op)
    ensures Structure(AppendFunding(s, utxo))
  {
    var s' := AppendFunding(s, utxo);
    AppendReads(s, utxo);
    hide Masked;
    assert KeysOk(s') && ListOk(s') && LineageOk(s') && ChangeOk(s');
    assert OrderOk(s') by {
      forall i, j | 0 <= i < j < |s'.speedups| ensures !Ancestor(s', s'.speedups[j], s'.speedups[i]) {
        assert !Ancestor(s, s.speedups[j], s.speedups[i]);
      }
    }
    forall x | IsSpeedup(s', x) ensures ChainEnds(s', x) && InputsOf(s', x) && InheritsInputs(s', x) {
      assert ChainEnds(s, x) && InputsOf(s, x) && InheritsInputs(s, x);
    }
    assert QueueOk(s') by {
      NoDupConcat(s.queue, [utxo.op]);
      forall op | op in s'.funding ensures RecordOk(s', op) {
        if op == utxo.op {
          assert op.txid in s.speedups ==> IsSpeedup(s, op.txid);
        } else {
          assert RecordOk(s, op);
        }
      }
    }
  }

  lemma AppendKeepsInv(s: State, utxo: Utxo)
    requires Inv(s) && FreshOutpoint(s, utxo.op)
    ensures Inv(AppendFunding(s, utxo))
  {
    var s' := AppendFunding(s, utxo);
    AppendKeepsStructure(s, utxo);
    AppendReads(s, utxo);
    hide Structure, Live, Waiting, Prebuilt, Masked, Ancestor;
    assert SharingOk(s') && InheritOk(s') && MaskOk(s') && WaitingOk(s') && MarkOk(s');
    assert ReservedOk(s') by {
      forall x, op | Live(s', x) && Uses(s', x, op) ensures Reserved(s', op) {
        assert Reserved(s, op) && op != utxo.op;
      }
    }
  }
}

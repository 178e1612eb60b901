/** A speedup finalizes: its change takes over the funding slot (src/core/storage.rs:698-769). */
module FinalizeLaws {
  import opened Types
  import opened States
  import opened Failures
  import opened Invariants
  import opened Evolution
  import opened FailureLaws
  import opened GrowthLaws

  /** The shape of the queue after a swap: consumed entries gone, the change at the first consumed slot. */
  function Swapped(queue: seq<OutPoint>, consumed: set<OutPoint>, change: OutPoint): seq<OutPoint> {
    var rest := Excluding(queue, consumed);
    var pos := FirstIn(queue, consumed);
    if pos <= |rest| then rest[..pos] + [change] + rest[pos..] else rest + [change]
  }

  lemma {:induction false} ExcludingPrefix(a: seq<OutPoint>, b: seq<OutPoint>, gone: set<OutPoint>)
    requires forall op :: op in a ==> op !in gone
    ensures Excluding(a + b, gone) == a + Excluding(b, gone)
  {
    hide Excluding;
    if a == [] {
      assert a + b == b;
    } else {
      ExcludingPrefix(a[1..], b, gone);
      assert a + b == [a[0]] + (a[1..] + b);
      ExcludingKeeps(a[0], a[1..] + b, gone);
      assert [a[0]] + (a[1..] + Excluding(b, gone)) == a + Excluding(b, gone);
    }
  }

  lemma ExcludingKeeps(op: OutPoint, ops: seq<OutPoint>, gone: set<OutPoint>)
    requires op !in gone
    ensures Excluding([op] + ops, gone) == [op] + Excluding(ops, gone)
  {
    assert ([op] + ops)[1..] == ops;
  }

  /** Up to the first consumed entry nothing is dropped, so the slot is exactly that position. */
  lemma FirstInKept(queue: seq<OutPoint>, consumed: set<OutPoint>)
    ensures FirstIn(queue, consumed) <= |Excluding(queue, consumed)|
    ensures Excluding(queue, consumed)[..FirstIn(queue, consumed)] == queue[..FirstIn(queue, consumed)]
  {
    hide Excluding, FirstIn;
    var n := FirstIn(queue, consumed);
    assert queue == queue[..n] + queue[n..];
    ExcludingPrefix(queue[..n], queue[n..], consumed);
  }

  lemma InsertAtNoDup<T>(xs: seq<T>, pos: nat, x: T)
    requires NoDup(xs) && pos <= |xs| && x !in xs
    ensures NoDup(xs[..pos] + [x] + xs[pos..])
    ensures forall y :: y in xs[..pos] + [x] + xs[pos..] <==> y in xs || y == x
  {
    var r := xs[..pos] + [x] + xs[pos..];
    forall i, j | 0 <= i < j < |r| ensures r[i] != r[j] {
      assert xs[..pos] + xs[pos..] == xs;
      assert i != pos ==> r[i] == xs[if i < pos then i else i - 1];
      assert j != pos ==> r[j] == xs[if j < pos then j else j - 1];
    }
    forall y ensures y in r <==> y in xs || y == x {
      assert y in xs <==> y in xs[..pos] || y in xs[pos..] by {
        assert xs == xs[..pos] + xs[pos..];
      }
    }
  }

  /** The finalizing speedup is listed, and its swap actually happens. */
  predicate Swaps(s: State, t: Txid) {
    && IsSpeedup(s, t)
    && t in s.speedups
    && s.txs[t].state.Finalized?
    && |s.txs[t].tx.outputs| > 0
    && FirstIn(s.queue, Ops(s.txs[t].FundingInputs())) < |s.queue|
  }

  lemma SwapShape(s: State, t: Txid)
    requires QueueOk(s) && KeysOk(s) && Swaps(s, t)
    ensures var s' := ReplaceFundingOnFinalize(s, t);
            var consumed := Ops(s.txs[t].FundingInputs());
            var change := s.txs[t].ChangeOp();
      && s'.queue == Swapped(s.queue, consumed, change)
      && change !in s.queue && change.txid == t
      && NoDup(s'.queue)
      && (forall op :: op in s'.queue <==> (op in s.queue && op !in consumed) || op == change)
      && (forall op :: op in s'.funding <==> (op in s.funding && op !in consumed) || op == change)
      && (forall op :: op in s'.funding && op != change ==> s'.funding[op] == s.funding[op])
      && s'.funding[change] == FundingData(s.txs[t].ChangeUtxo(), s.txs[t].IsSpent(), true)
      && s'.txs == s.txs && s'.lineage == s.lineage && s'.psp == s.psp && s'.news == s.news
      && s'.speedups == Excluding(s.speedups, {t})
  {
    var consumed := Ops(s.txs[t].FundingInputs());
    var change := s.txs[t].ChangeOp();
    var rest := Excluding(s.queue, consumed);
    assert change.txid in s.speedups;
    FirstInKept(s.queue, consumed);
    ExcludingNoDup(s.queue, consumed);
    InsertAtNoDup(rest, FirstIn(s.queue, consumed), change);
  }

  lemma SwapKeepsQueue(s: State, t: Txid)
    requires QueueOk(s) && KeysOk(s) && LineageOk(s) && Swaps(s, t)
    ensures QueueOk(ReplaceFundingOnFinalize(s, t))
  {
    var s' := ReplaceFundingOnFinalize(s, t);
    SwapShape(s, t);
    hide ReplaceFundingOnFinalize, NoDup;
    forall op | op in s'.funding ensures RecordOk(s', op) {
      if op != s.txs[t].ChangeOp() {
        assert RecordOk(s, op);
      }
    }
  }

  lemma UnlistReads(s: State, s': State)
    requires s'.txs == s.txs && s'.lineage == s.lineage
    ensures forall x :: IsSpeedup(s', x) == IsSpeedup(s, x)
    ensures forall x :: Live(s', x) == Live(s, x)
    ensures forall x :: Waiting(s', x) == Waiting(s, x)
    ensures forall x :: Prebuilt(s', x) == Prebuilt(s, x)
    ensures forall x, op :: Uses(s', x, op) == Uses(s, x, op)
    ensures forall x, op :: Claims(s', x, op) == Claims(s, x, op)
    ensures forall x, y :: Ancestor(s', x, y) == Ancestor(s, x, y)
    ensures forall x, y :: Supersedes(s', x, y) == Supersedes(s, x, y)
  {}

  /** Taking a finalized speedup off the list keeps every list clause. */
  lemma UnlistKeepsLists(s: State, s': State, t: Txid)
    requires KeysOk(s) && ListOk(s) && LineageOk(s) && OrderOk(s) && ChangeOk(s)
    requires s'.txs == s.txs && s'.lineage == s.lineage && s'.speedups == Excluding(s.speedups, {t})
    requires IsSpeedup(s, t) && s.txs[t].state.Finalized?
    ensures KeysOk(s') && ListOk(s') && LineageOk(s') && OrderOk(s') && ChangeOk(s')
  {
    UnlistReads(s, s');
    ExcludingNoDup(s.speedups, {t});
    forall i, j | 0 <= i < j < |s'.speedups| ensures !Ancestor(s', s'.speedups[j], s'.speedups[i]) {
      ExcludingOrder(s.speedups, {t}, i, j);
      var a, b :| 0 <= a < b < |s.speedups| && s.speedups[a] == s'.speedups[i] && s.speedups[b] == s'.speedups[j];
      assert !Ancestor(s, s.speedups[b], s.speedups[a]);
    }
  }

  lemma UnlistKeepsInputs(s: State, s': State)
    requires RbfOk(s) && InputsOk(s) && s'.txs == s.txs && s'.lineage == s.lineage
    ensures RbfOk(s') && InputsOk(s')
  {
    forall x | IsSpeedup(s', x) ensures ChainEnds(s', x) && InputsOf(s', x) && InheritsInputs(s', x) {
      assert IsSpeedup(s, x);
      assert ChainEnds(s, x) && InputsOf(s, x) && InheritsInputs(s, x);
    }
  }

  lemma SwapKeepsStructure(s: State, t: Txid)
    requires Structure(s) && Swaps(s, t)
    ensures Structure(ReplaceFundingOnFinalize(s, t))
  {
    var s' := ReplaceFundingOnFinalize(s, t);
    SwapShape(s, t);
    hide ReplaceFundingOnFinalize, QueueOk, KeysOk, ListOk, LineageOk, OrderOk, ChangeOk, RbfOk, InputsOk, NoDup;
    SwapKeepsQueue(s, t);
    UnlistKeepsLists(s, s', t);
    UnlistKeepsInputs(s, s');
  }

  lemma SwapKeepsMasks(s: State, s': State, t: Txid)
    requires MaskOk(s) && WaitingOk(s) && IsSpeedup(s, t) && s.txs[t].state.Finalized? && MarkOk(s)
    requires s'.txs == s.txs && s'.lineage == s.lineage && s'.speedups == Excluding(s.speedups, {t})
    ensures MaskOk(s') && WaitingOk(s')
  {
    forall x | Masked(s', x) ensures Masked(s, x) {
      if z :| z in s'.speedups && Live(s', z) && Supersedes(s', z, x) {
        assert z in s.speedups && Live(s, z) && Supersedes(s, z, x);
      }
    }
    forall x, y | Live(s', x) && Live(s', y) && Ancestor(s', x, y) ensures Masked(s', x) {
      assert Live(s, x) && Live(s, y) && Ancestor(s, x, y);
      assert Masked(s, x);
      if !s.txs[x].IsBeingReplaced() {
        var z :| z in s.speedups && Live(s, z) && Supersedes(s, z, x);
        assert z in s'.speedups && Live(s', z) && Supersedes(s', z, x);
      }
    }
    forall x | Waiting(s', x) ensures !Masked(s', x) {
      assert Waiting(s, x);
    }
  }

  lemma SwapKeepsReservations(s: State, t: Txid)
    requires Structure(s) && Reservations(s) && Swaps(s, t)
    ensures Reservations(ReplaceFundingOnFinalize(s, t))
  {
    var s' := ReplaceFundingOnFinalize(s, t);
    SwapShape(s, t);
    UnlistReads(s, s');
    hide ReplaceFundingOnFinalize, LineageOk, RbfOk, OrderOk, InputsOk, ListOk, Masked;
    SwapKeepsMasks(s, s', t);
    hide MaskOk, WaitingOk;
    assert SharingOk(s') && InheritOk(s') && MarkOk(s');
    assert ReservedOk(s') by {
      forall x, op | Live(s', x) && Uses(s', x, op) ensures Reserved(s', op) {
        assert Reserved(s, op);
      }
    }
  }

  /** Materializing the change keeps the invariant; without a matching queue entry nothing happens at all. */
  lemma ReplaceKeepsInv(s: State, t: Txid)
    requires Inv(s) && (t in s.txs && t in s.speedups ==> s.txs[t].state.Finalized?)
    requires t in s.speedups
    ensures Inv(ReplaceFundingOnFinalize(s, t))
  {
    if Swaps(s, t) {
      SwapShape(s, t);
      SwapKeepsRecords(s, ReplaceFundingOnFinalize(s, t));
      hide Structure, Reservations, ReplaceFundingOnFinalize, LifecycleOk, ParentsOk, OnePrebuilt, NoDup, Swapped;
      SwapKeepsStructure(s, t);
      SwapKeepsReservations(s, t);
    }
  }

  lemma SwapKeepsRecords(s: State, s': State)
    requires LifecycleOk(s) && ParentsOk(s) && OnePrebuilt(s) && s'.txs == s.txs && s'.psp == s.psp
    ensures LifecycleOk(s') && ParentsOk(s') && OnePrebuilt(s')
  {
    forall x ensures Prebuilt(s', x) == Prebuilt(s, x) {}
  }
}

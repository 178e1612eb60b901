/** Funding chain collapse (src/core/storage.rs:698-769): speedups that spend each other's change and finalize
    in order leave one queue record, the last change, in the slot of the UTXO the chain started from. */
module ChainLaws {
  import opened Types
  import opened Oracles
  import opened States
  import opened Failures
  import opened Engines
  import opened Invariants
  import opened Evolution
  import opened FailureLaws
  import opened GrowthLaws
  import opened FinalizeLaws
  import opened ReviewLaws

  /** Finalize the speedups `ts` one after the other, as consecutive reviews do. */
  function FinalizeAll(s: State, ts: seq<Txid>, height: BlockHeight): State
    decreases |ts|
  {
    if ts == [] then s
    else if ts[0] !in s.txs then FinalizeAll(s, ts[1..], height)
    else FinalizeAll(FinalizeSpeedup(s, s.txs[ts[0]], height), ts[1..], height)
  }

  /** The first of `ts` spends `base` and each other one spends the change of the one before it. */
  predicate Linear(s: State, base: OutPoint, ts: seq<Txid>)
    decreases |ts|
  {
    ts != [] ==>
      && ts[0] in s.txs
      && |s.txs[ts[0]].FundingInputs()| == 1
      && s.txs[ts[0]].FundingInputs()[0].op == base
      && Linear(s, s.txs[ts[0]].ChangeOp(), ts[1..])
  }

  /** Every member is a tracked speedup in flight, and no later one was replaced by an earlier one. */
  ghost predicate Finalizing(s: State, ts: seq<Txid>) {
    && (forall i :: 0 <= i < |ts| ==> ts[i] in s.speedups && ts[i] in s.txs && InFlight(s.txs[ts[i]]))
    && (forall i, j :: 0 <= i < j < |ts| ==> ts[i] != ts[j] && !Ancestor(s, ts[j], ts[i]))
  }

  /** The order in which the SpeedupList holds them is enough for the second part. */
  lemma ListOrderFinalizes(s: State, ts: seq<Txid>, at: seq<nat>)
    requires OrderOk(s) && NoDup(s.speedups) && |at| == |ts|
    requires forall i, j :: 0 <= i < j < |at| ==> at[i] < at[j]
    requires forall i :: 0 <= i < |ts| ==>
               at[i] < |s.speedups| && s.speedups[at[i]] == ts[i] && ts[i] in s.txs && InFlight(s.txs[ts[i]])
    ensures Finalizing(s, ts)
  {
    forall i, j | 0 <= i < j < |ts| ensures ts[i] != ts[j] && !Ancestor(s, ts[j], ts[i]) {
      assert at[i] < at[j];
      assert !Ancestor(s, s.speedups[at[j]], s.speedups[at[i]]);
    }
  }

  // ---------------------------------------------------------------- one finalization

  lemma {:induction false} ExcludingNone(queue: seq<OutPoint>, base: OutPoint)
    requires base !in queue
    ensures Excluding(queue, {base}) == queue
  {
    if queue != [] {
      ExcludingNone(queue[1..], base);
    }
  }

  lemma {:induction false} ExcludingMiddle(a: seq<OutPoint>, base: OutPoint, b: seq<OutPoint>)
    requires base !in a && base !in b
    ensures FirstIn(a + [base] + b, {base}) == |a| && Excluding(a + [base] + b, {base}) == a + b
  {
    var queue := a + [base] + b;
    if a == [] {
      assert queue[1..] == b;
      ExcludingNone(b, base);
    } else {
      assert queue[1..] == a[1..] + [base] + b;
      ExcludingMiddle(a[1..], base, b);
      assert a + b == [a[0]] + (a[1..] + b);
    }
  }

  lemma ExcludingOne(queue: seq<OutPoint>, base: OutPoint, k: nat)
    requires NoDup(queue) && k < |queue| && queue[k] == base
    ensures FirstIn(queue, {base}) == k && Excluding(queue, {base}) == queue[..k] + queue[k + 1..]
  {
    hide Excluding, FirstIn;
    assert queue == queue[..k] + [base] + queue[k + 1..];
    ExcludingMiddle(queue[..k], base, queue[k + 1..]);
  }

  lemma Splice(queue: seq<OutPoint>, rest: seq<OutPoint>, change: OutPoint, k: nat)
    requires k < |queue| && rest == queue[..k] + queue[k + 1..]
    ensures k <= |rest| && rest[..k] + [change] + rest[k..] == queue[k := change]
  {
    assert rest[..k] == queue[..k] && rest[k..] == queue[k + 1..];
  }

  /** Swapping one consumed entry of a duplicate-free queue is an update in place. */
  lemma SwapInPlace(queue: seq<OutPoint>, base: OutPoint, change: OutPoint, k: nat)
    requires NoDup(queue) && k < |queue| && queue[k] == base
    ensures FirstIn(queue, {base}) == k && Swapped(queue, {base}, change) == queue[k := change]
  {
    ExcludingOne(queue, base, k);
    Splice(queue, Excluding(queue, {base}), change, k);
  }

  lemma {:induction false} WalkKeepsFunding(s: State, t: Txid, height: BlockHeight)
    ensures SettleReplacedChain(s, t, height).queue == s.queue && SettleReplacedChain(s, t, height).funding == s.funding
    decreases Rank(s, t)
  {
    var settled := SettleTx(s, t, Failed, height);
    assert settled.queue == s.queue && settled.funding == s.funding && settled.lineage == s.lineage;
    hide SettleTx;
    if t in s.txs && s.txs[t].IsRBF() && Rank(s, s.txs[t].kind.speedup.predecessor) < Rank(s, t) {
      WalkKeepsFunding(settled, s.txs[t].kind.speedup.predecessor, height);
    }
  }

  /** The funding part of `s'` is that of `s` with `base` swapped for the change of `t`, in the same slot. */
  ghost predicate Collapsed(s: State, s': State, k: nat, t: Txid) {
    && k < |s.queue|
    && t in s.txs && |s.txs[t].tx.outputs| > 0
    && s.txs[t].ChangeOp() !in s.funding
    && s'.queue == s.queue[k := s.txs[t].ChangeOp()]
    && s'.funding.Keys == s.funding.Keys - {s.queue[k]} + {s.txs[t].ChangeOp()}
    && s'.funding[s.txs[t].ChangeOp()] == FundingData(s.txs[t].ChangeUtxo(), s.txs[t].IsSpent(), true)
    && (forall op :: op in s.funding && op != s.queue[k] ==> s'.funding[op] == s.funding[op])
  }

  /** Settling the speedup and the chain it replaced leaves the funding alone. */
  lemma FinalizeWalks(s: State, tx: CoordinatedTx, height: BlockHeight) returns (walked: State)
    requires Inv(s) && tx.txid in s.speedups && tx.txid in s.txs && s.txs[tx.txid] == tx && InFlight(tx)
    ensures FinalizeSpeedup(s, tx, height) == ReplaceFundingOnFinalize(walked, tx.txid)
    ensures Inv(walked) && walked.queue == s.queue && walked.funding == s.funding && walked.speedups == s.speedups
    ensures tx.txid in walked.txs
    ensures walked.txs[tx.txid] == tx.(state := Finalized, settledBlockHeight := Some(height))
  {
    hide Inv;
    var finalized := SettleTx(s, tx.txid, Finalized, height);
    FinalizeKeepsInv(s, tx.txid, height);
    walked := RemoveReplacedRbf(finalized, tx, height);
    assert Matches(finalized, tx) by { SameShapeReflexive(tx); }
    hide Matches, Touches, Evolves;
    WalkTouches(finalized, tx, height);
    if tx.IsRBF() {
      WalkKeepsFunding(finalized, tx.kind.speedup.predecessor, height);
    }
  }

  lemma InvQueue(s: State)
    requires Inv(s)
    ensures QueueOk(s) && KeysOk(s) && ListOk(s) && InputsOk(s)
  {}

  lemma FinalizeCollapses(s: State, tx: CoordinatedTx, height: BlockHeight, base: OutPoint, k: nat)
    requires Inv(s) && tx.txid in s.speedups && tx.txid in s.txs && s.txs[tx.txid] == tx && InFlight(tx)
    requires |tx.FundingInputs()| == 1 && tx.FundingInputs()[0].op == base
    requires k < |s.queue| && s.queue[k] == base
    ensures Collapsed(s, FinalizeSpeedup(s, tx, height), k, tx.txid)
  {
    var t := tx.txid;
    var walked := FinalizeWalks(s, tx, height);
    InvQueue(s);
    InvQueue(walked);
    hide Inv, FinalizeSpeedup;
    assert InputsOf(s, t) && IsSpeedup(s, t);
    SwapInPlace(s.queue, base, tx.ChangeOp(), k);
    assert Ops(walked.txs[t].FundingInputs()) == {base};
    assert walked.txs[t].ChangeOp() == tx.ChangeOp() && walked.txs[t].ChangeUtxo() == tx.ChangeUtxo();
    SwapShape(walked, t);
    hide ReplaceFundingOnFinalize, Swapped, InputsOk, ListOk;
    SwappedCollapses(s, walked, ReplaceFundingOnFinalize(walked, t), base, k, t);
  }

  lemma SwappedCollapses(s: State, walked: State, s': State, base: OutPoint, k: nat, t: Txid)
    requires QueueOk(s) && t in s.txs && |s.txs[t].tx.outputs| > 0 && k < |s.queue| && s.queue[k] == base
    requires walked.queue == s.queue && walked.funding == s.funding
    requires var change := s.txs[t].ChangeOp();
      && s'.queue == s.queue[k := change]
      && change !in s.queue
      && (forall op :: op in s'.funding <==> (op in s.funding && op !in {base}) || op == change)
      && (forall op :: op in s'.funding && op != change ==> s'.funding[op] == s.funding[op])
      && s'.funding[change] == FundingData(s.txs[t].ChangeUtxo(), s.txs[t].IsSpent(), true)
    ensures Collapsed(s, s', k, t)
  {
    assert s.txs[t].ChangeOp() !in s.funding;
  }

  // ---------------------------------------------------------------- any number of them

  lemma {:induction false} LinearStays(s: State, s': State, base: OutPoint, ts: seq<Txid>)
    requires Linear(s, base, ts)
    requires forall i :: 0 <= i < |ts| ==> ts[i] in s.txs && ts[i] in s'.txs && SameShape(s.txs[ts[i]], s'.txs[ts[i]])
    ensures Linear(s', base, ts)
    decreases |ts|
  {
    if ts != [] {
      assert SameShape(s.txs[ts[0]], s'.txs[ts[0]]);
      forall i | 0 <= i < |ts[1..]| ensures ts[1..][i] in s'.txs && SameShape(s.txs[ts[1..][i]], s'.txs[ts[1..][i]]) {
        assert ts[1..][i] == ts[i + 1];
      }
      LinearStays(s, s', s.txs[ts[0]].ChangeOp(), ts[1..]);
    }
  }

  lemma FinalizingAdvances(s: State, s': State, ts: seq<Txid>)
    requires ts != [] && Finalizing(s, ts) && Touches(s, s', ts[0])
    ensures Finalizing(s', ts[1..])
    ensures forall i :: 0 < i < |ts| ==> ts[i] in s'.txs && s'.txs[ts[i]] == s.txs[ts[i]]
  {
    hide SameShape;
    forall i | 0 < i < |ts| ensures ts[i] in s'.speedups && ts[i] in s'.txs && s'.txs[ts[i]] == s.txs[ts[i]] {
      assert !Ancestor(s, ts[i], ts[0]);
    }
    forall i, j | 0 <= i < j < |ts[1..]| ensures ts[1..][i] != ts[1..][j] && !Ancestor(s', ts[1..][j], ts[1..][i]) {
      assert !Ancestor(s, ts[j + 1], ts[i + 1]);
    }
  }

  lemma CollapsesCompose(a: State, b: State, c: State, k: nat, t: Txid, u: Txid)
    requires Collapsed(a, b, k, t) && Collapsed(b, c, k, u)
    requires u in a.txs && b.txs[u] == a.txs[u] && a.txs[u].ChangeOp() !in a.funding
    requires a.txs[u].ChangeOp() != a.queue[k]
    ensures Collapsed(a, c, k, u)
  {
    assert c.queue == a.queue[k := a.txs[u].ChangeOp()];
    var first, last := a.txs[t].ChangeOp(), a.txs[u].ChangeOp();
    assert c.funding.Keys == a.funding.Keys - {a.queue[k]} - {first} + {last};
    assert a.funding.Keys - {a.queue[k]} - {first} == a.funding.Keys - {a.queue[k]};
  }

  /** A listed speedup's change is not queued yet. */
  lemma ChangeNotQueued(s: State, t: Txid)
    requires QueueOk(s) && KeysOk(s) && t in s.speedups && t in s.txs
    ensures s.txs[t].ChangeOp() !in s.funding && s.txs[t].ChangeOp() !in s.queue
  {
    assert s.txs[t].ChangeOp() in s.funding ==> RecordOk(s, s.txs[t].ChangeOp());
  }

  /** The first member finalizes and the rest of the chain starts from its change. */
  lemma FirstFinalizes(s: State, base: OutPoint, ts: seq<Txid>, height: BlockHeight, k: nat) returns (next: State)
    requires Inv(s) && ts != [] && Linear(s, base, ts) && Finalizing(s, ts)
    requires k < |s.queue| && s.queue[k] == base
    ensures FinalizeAll(s, ts, height) == FinalizeAll(next, ts[1..], height)
    ensures Inv(next) && Collapsed(s, next, k, ts[0]) && ts[0] in s.txs
    ensures Linear(next, s.txs[ts[0]].ChangeOp(), ts[1..]) && Finalizing(next, ts[1..])
    ensures k < |next.queue| && next.queue[k] == s.txs[ts[0]].ChangeOp()
    ensures forall i :: 0 < i < |ts| ==> ts[i] in s.txs && ts[i] in next.txs && next.txs[ts[i]] == s.txs[ts[i]]
    ensures forall i :: 0 <= i < |ts| ==> ts[i] in s.txs && s.txs[ts[i]].ChangeOp() !in s.funding && s.txs[ts[i]].ChangeOp() !in s.queue
  {
    InvQueue(s);
    var tx := s.txs[ts[0]];
    assert tx.txid == ts[0];
    hide Inv, FinalizeSpeedup, Collapsed, Touches, ListOk, InputsOk, QueueOk, KeysOk;
    next := FinalizeSpeedup(s, tx, height);
    FinalizeSpeedupAdvances(s, tx, height);
    FinalizeCollapses(s, tx, height, base, k);
    FinalizingAdvances(s, next, ts);
    LinearAdvances(s, next, ts, base);
    CollapsedSlot(s, next, k, ts[0]);
    forall i | 0 <= i < |ts| ensures ts[i] in s.txs && s.txs[ts[i]].ChangeOp() !in s.funding && s.txs[ts[i]].ChangeOp() !in s.queue {
      ChangeNotQueued(s, ts[i]);
    }
  }

  /** For a chain of any length: only the last change is left, in the slot of the UTXO the chain started from; every
      other record keeps content and position, and the list stays duplicate-free and in bijection. */
  lemma {:induction false} ChainCollapses(s: State, base: OutPoint, ts: seq<Txid>, height: BlockHeight, k: nat)
    requires Inv(s) && ts != [] && Linear(s, base, ts) && Finalizing(s, ts)
    requires k < |s.queue| && s.queue[k] == base
    ensures Collapsed(s, FinalizeAll(s, ts, height), k, ts[|ts| - 1])
    ensures Inv(FinalizeAll(s, ts, height)) && QueueOk(FinalizeAll(s, ts, height))
    decreases |ts|
  {
    hide Inv, Collapsed, QueueOk, KeysOk, Linear, Finalizing, ListOk, InputsOk;
    var next := FirstFinalizes(s, base, ts, height, k);
    if |ts| == 1 {
      assert ts[1..] == [];
      InvQueue(next);
    } else {
      var last := ts[|ts| - 1];
      assert ts[1..][|ts[1..]| - 1] == last;
      ChainCollapses(next, s.txs[ts[0]].ChangeOp(), ts[1..], height, k);
      CollapsesCompose(s, next, FinalizeAll(s, ts, height), k, ts[0], last);
    }
  }

  lemma CollapsedSlot(s: State, s': State, k: nat, t: Txid)
    requires Collapsed(s, s', k, t)
    ensures k < |s'.queue| && t in s.txs && s'.queue[k] == s.txs[t].ChangeOp()
  {}

  lemma LinearAdvances(s: State, s': State, ts: seq<Txid>, base: OutPoint)
    requires ts != [] && Linear(s, base, ts) && Finalizing(s, ts)
    requires forall i :: 0 < i < |ts| ==> ts[i] in s'.txs && s'.txs[ts[i]] == s.txs[ts[i]]
    ensures Linear(s', s.txs[ts[0]].ChangeOp(), ts[1..])
  {
    hide SameShape;
    forall i | 0 <= i < |ts[1..]|
      ensures ts[1..][i] in s.txs && ts[1..][i] in s'.txs && SameShape(s.txs[ts[1..][i]], s'.txs[ts[1..][i]])
    {
      assert ts[1..][i] == ts[i + 1];
      SameShapeReflexive(s.txs[ts[i + 1]]);
    }
    LinearStays(s, s', s.txs[ts[0]].ChangeOp(), ts[1..]);
  }

  // ---------------------------------------------------------------- in one review

  predicate Finalizes(status: Txid -> ChainStatus, r: CoordinatedTx) {
    InFlight(r) && status(r.txid).Settled?
  }

  /** The records of `all` at the places `at` form a linear chain from `base`. */
  predicate LinearAt(all: seq<CoordinatedTx>, at: seq<nat>, base: OutPoint)
    decreases |at|
  {
    at != [] ==>
      && at[0] < |all|
      && |all[at[0]].FundingInputs()| == 1
      && all[at[0]].FundingInputs()[0].op == base
      && LinearAt(all, at[1..], all[at[0]].ChangeOp())
  }

  /** From place `i` on, exactly the places `at`, in this order, hold speedups this review finalizes. */
  ghost predicate FinalizesAt(status: Txid -> ChainStatus, all: seq<CoordinatedTx>, at: seq<nat>, i: nat) {
    && (forall a, b :: 0 <= a < b < |at| ==> at[a] < at[b])
    && (forall a :: 0 <= a < |at| ==> i <= at[a] < |all|)
    && (forall j :: i <= j < |all| ==> (Finalizes(status, all[j]) <==> j in at))
  }

  lemma QuietItem(s: State, cfg: Config, status: Txid -> ChainStatus, all: seq<CoordinatedTx>, tx: CoordinatedTx, height: BlockHeight)
    requires !Finalizes(status, tx)
    ensures var s' := ReviewSpeedup(s, cfg, status, all, tx, height); s'.queue == s.queue && s'.funding == s.funding
  {}

  lemma {:induction false} QuietRest(s: State, cfg: Config, status: Txid -> ChainStatus, all: seq<CoordinatedTx>, i: nat,
                                     height: BlockHeight)
    requires i <= |all| && forall j :: i <= j < |all| ==> !Finalizes(status, all[j])
    ensures var s' := ReviewSpeedupsFrom(s, cfg, status, all, i, height); s'.queue == s.queue && s'.funding == s.funding
    decreases |all| - i
  {
    hide ReviewSpeedup, Finalizes;
    if i < |all| {
      QuietItem(s, cfg, status, all, all[i], height);
      QuietRest(ReviewSpeedup(s, cfg, status, all, all[i], height), cfg, status, all, i + 1, height);
    }
  }

  lemma CollapsedSameFunding(a: State, b: State, c: State, k: nat, t: Txid)
    requires Collapsed(b, c, k, t) && b.queue == a.queue && b.funding == a.funding && t in a.txs && b.txs[t] == a.txs[t]
    ensures Collapsed(a, c, k, t)
  {}

  lemma CollapsedSameEnd(a: State, b: State, c: State, k: nat, t: Txid)
    requires Collapsed(a, b, k, t) && c.queue == b.queue && c.funding == b.funding
    ensures Collapsed(a, c, k, t)
  {}

  lemma PlaceIsStored(s: State, all: seq<CoordinatedTx>, i: nat, j: nat)
    requires i <= j < |all| && Reviewing(s, all, i)
    ensures all[j].txid in s.speedups && all[j].txid in s.txs && s.txs[all[j].txid] == all[j] && Inv(s)
    ensures all[j].ChangeOp() !in s.funding && all[j].ChangeOp() !in s.queue
  {
    hide Inv;
    InvQueue(s);
    ChangeNotQueued(s, all[j].txid);
  }

  lemma PlacesAdvance(status: Txid -> ChainStatus, all: seq<CoordinatedTx>, at: seq<nat>, i: nat)
    requires i < |all| && FinalizesAt(status, all, at, i)
    ensures at != [] && at[0] == i ==> FinalizesAt(status, all, at[1..], i + 1) && Finalizes(status, all[i])
    ensures at == [] || at[0] != i ==> FinalizesAt(status, all, at, i + 1) && !Finalizes(status, all[i])
  {
    hide Finalizes;
    if at != [] && at[0] == i {
      assert forall j :: j in at <==> j == i || j in at[1..];
    } else {
      forall a | 0 <= a < |at| ensures at[a] != i {
        assert a > 0 ==> at[0] < at[a];
      }
    }
  }

  /** A review that finalizes a linear chain collapses its funding, whatever it does to the other speedups. */
  lemma {:induction false} ReviewFromCollapses(s: State, cfg: Config, status: Txid -> ChainStatus, all: seq<CoordinatedTx>, i: nat,
                                               at: seq<nat>, height: BlockHeight, base: OutPoint, k: nat)
    requires i < |all| && Reviewing(s, all, i) && at != [] && FinalizesAt(status, all, at, i) && LinearAt(all, at, base)
    requires k < |s.queue| && s.queue[k] == base
    ensures at[|at| - 1] < |all|
    ensures Collapsed(s, ReviewSpeedupsFrom(s, cfg, status, all, i, height), k, all[at[|at| - 1]].txid)
    decreases |all| - i
  {
    hide Reviewing, ReviewSpeedup, Inv, Collapsed, Finalizes;
    var next := ReviewSpeedup(s, cfg, status, all, all[i], height);
    var final := ReviewSpeedupsFrom(s, cfg, status, all, i, height);
    var last := at[|at| - 1];
    PlacesAdvance(status, all, at, i);
    PlaceIsStored(s, all, i, i);
    PlaceIsStored(s, all, i, last);
    ReviewSpeedupAdvances(s, cfg, status, all, i, height);
    if at[0] != i {
      QuietItem(s, cfg, status, all, all[i], height);
      PlaceIsStored(next, all, i + 1, last);
      ReviewFromCollapses(next, cfg, status, all, i + 1, at, height, base, k);
      CollapsedSameFunding(s, next, final, k, all[last].txid);
    } else {
      FinalizingItem(s, cfg, status, all, i, height);
      FinalizeCollapses(s, all[i], height, base, k);
      if |at| == 1 {
        assert at[1..] == [];
        QuietRest(next, cfg, status, all, i + 1, height);
        CollapsedSameEnd(s, next, final, k, all[i].txid);
      } else {
        assert at[1..][|at[1..]| - 1] == last;
        CollapsedSlot(s, next, k, all[i].txid);
        PlaceIsStored(next, all, i + 1, last);
        ReviewFromCollapses(next, cfg, status, all, i + 1, at[1..], height, all[i].ChangeOp(), k);
        CollapsesCompose(s, next, final, k, all[i].txid, all[last].txid);
      }
    }
  }

  lemma FinalizingItem(s: State, cfg: Config, status: Txid -> ChainStatus, all: seq<CoordinatedTx>, i: nat, height: BlockHeight)
    requires i < |all| && Finalizes(status, all[i])
    ensures ReviewSpeedup(s, cfg, status, all, all[i], height) == FinalizeSpeedup(s, all[i], height) && InFlight(all[i])
  {
    hide FinalizeSpeedup;
  }

  lemma {:induction false} LinearPlaces(s: State, all: seq<CoordinatedTx>, base: OutPoint, ts: seq<Txid>, at: seq<nat>)
    requires Linear(s, base, ts) && |at| == |ts|
    requires forall a :: 0 <= a < |at| ==> at[a] < |all| && ts[a] in s.txs && all[at[a]] == s.txs[ts[a]]
    ensures LinearAt(all, at, base)
    decreases |ts|
  {
    if ts != [] {
      LinearPlaces(s, all, s.txs[ts[0]].ChangeOp(), ts[1..], at[1..]);
    }
  }

  /** Step 2 in which the chain answers settle a linear chain of tracked speedups and no other speedup: the queue ends with
      the last change in the slot of the UTXO the chain started from, everything else in the funding list unchanged. */
  lemma ReviewCollapsesChain(s: State, cfg: Config, status: Txid -> ChainStatus, height: BlockHeight, base: OutPoint,
                             ts: seq<Txid>, at: seq<nat>, k: nat)
    requires Inv(s) && ts != [] && Linear(s, base, ts) && |at| == |ts|
    requires forall a, b :: 0 <= a < b < |at| ==> at[a] < at[b]
    requires forall a :: 0 <= a < |at| ==> at[a] < |s.speedups| && s.speedups[at[a]] == ts[a]
    requires forall t :: t in s.speedups && t in s.txs ==> (Finalizes(status, s.txs[t]) <==> t in ts)
    requires k < |s.queue| && s.queue[k] == base
    ensures Collapsed(s, ReviewSpeedups(s, cfg, status, height), k, ts[|ts| - 1])
    ensures QueueOk(ReviewSpeedups(s, cfg, status, height))
  {
    hide Inv, Reviewing, SpeedupRecords, Finalizes, Collapsed, QueueOk, KeysOk, ListOk, InputsOk, FinalizesAt;
    var all := SpeedupRecords(s);
    ListedSnapshot(s);
    ReviewStarts(s);
    LinearPlaces(s, all, base, ts, at);
    PlacesFinalize(s, status, ts, at);
    assert s.speedups[at[|at| - 1]] == ts[|ts| - 1];
    ReviewFromCollapses(s, cfg, status, all, 0, at, height, base, k);
    ReviewSpeedupsKeepsInv(s, cfg, status, height);
    InvQueue(ReviewSpeedups(s, cfg, status, height));
  }

  lemma PlacesFinalize(s: State, status: Txid -> ChainStatus, ts: seq<Txid>, at: seq<nat>)
    requires Inv(s) && |at| == |ts|
    requires forall a, b :: 0 <= a < b < |at| ==> at[a] < at[b]
    requires forall a :: 0 <= a < |at| ==> at[a] < |s.speedups| && s.speedups[at[a]] == ts[a]
    requires forall t :: t in s.speedups && t in s.txs ==> (Finalizes(status, s.txs[t]) <==> t in ts)
    ensures FinalizesAt(status, SpeedupRecords(s), at, 0)
  {
    ListedSnapshot(s);
    assert NoDup(s.speedups);
    hide Inv, SpeedupRecords, Finalizes;
    var all := SpeedupRecords(s);
    forall j | 0 <= j < |all| ensures Finalizes(status, all[j]) <==> j in at {
      PlaceOf(s.speedups, ts, at, j);
      assert s.speedups[j] in s.speedups;
    }
  }

  lemma PlaceOf(speedups: seq<Txid>, ts: seq<Txid>, at: seq<nat>, j: nat)
    requires NoDup(speedups) && |at| == |ts| && j < |speedups|
    requires forall a :: 0 <= a < |at| ==> at[a] < |speedups| && speedups[at[a]] == ts[a]
    ensures speedups[j] in ts <==> j in at
  {
    if j in at {
      var a :| 0 <= a < |at| && at[a] == j;
      assert ts[a] == speedups[j];
    }
    if speedups[j] in ts {
      var a :| 0 <= a < |ts| && ts[a] == speedups[j];
      assert at[a] == j;
    }
  }
}

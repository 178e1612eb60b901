/** What the two funding passes hand out, exactly, read from the store alone (src/core/funding.rs:74-127). */
module ChoiceLaws {
  import opened Types
  import opened Oracles
  import opened States
  import opened Funding
  import opened Invariants
  import opened BuildLaws
  import opened ReviewLaws
  import opened CreationLaws

  /** A listed speedup the node has, that nothing replaces and whose change no build has taken. */
  ghost predicate OpenSpeedup(s: State, t: Txid) {
    && t in s.speedups && t in s.txs && s.txs[t].kind.Speedup?
    && (s.txs[t].state.InMempool? || s.txs[t].state.Confirmed? || s.txs[t].state.Finalized?)
    && !Masked(s, t)
    && !s.txs[t].kind.speedup.context.spent
  }

  /** `t` is the last such speedup of the list. */
  ghost predicate LastOpen(s: State, t: Txid) {
    exists i :: 0 <= i < |s.speedups| && s.speedups[i] == t && OpenSpeedup(s, t)
                && forall j :: i < j < |s.speedups| ==> !OpenSpeedup(s, s.speedups[j])
  }

  ghost predicate NoneOpen(s: State) {
    forall t :: t in s.speedups ==> !OpenSpeedup(s, t)
  }

  predicate OpenRecord(s: State, op: OutPoint) {
    op in s.funding && !s.funding[op].spent
  }

  /** `op` is the first unspent record of the queue, whatever it came from. */
  ghost predicate FirstOpenOf(s: State, op: OutPoint) {
    exists i :: 0 <= i < |s.queue| && s.queue[i] == op && OpenRecord(s, op)
                && forall j :: 0 <= j < i ==> !OpenRecord(s, s.queue[j])
  }

  predicate UserRecord(s: State, op: OutPoint) {
    OpenRecord(s, op) && !s.funding[op].fromSpeedup
  }

  /** `op` is the first unspent record of the queue that a user provided. */
  ghost predicate FirstUserOf(s: State, op: OutPoint) {
    exists i :: 0 <= i < |s.queue| && s.queue[i] == op && UserRecord(s, op)
                && forall j :: 0 <= j < i ==> !UserRecord(s, s.queue[j])
  }

  // ---------------------------------------------------------------- the two passes

  lemma {:induction false} LatestIs(all: seq<CoordinatedTx>, n: nat, i: nat)
    requires i < n <= |all| && IsOpenTip(all[i], all) && forall j :: i < j < n ==> !IsOpenTip(all[j], all)
    ensures LatestOpenTip(all, n) == Some(all[i])
    decreases n
  {
    hide IsOpenTip;
    if i < n - 1 {
      LatestIs(all, n - 1, i);
    }
  }

  lemma {:induction false} LatestIsNone(all: seq<CoordinatedTx>, n: nat)
    requires n <= |all| && forall j :: 0 <= j < n ==> !IsOpenTip(all[j], all)
    ensures LatestOpenTip(all, n).None?
    decreases n
  {
    hide IsOpenTip;
    if n > 0 {
      LatestIsNone(all, n - 1);
    }
  }

  lemma {:induction false} FirstIs(s: State, queue: seq<OutPoint>, userOnly: bool, i: nat)
    requires i < |queue| && IsOpenRecord(s, queue[i], userOnly)
    requires forall j :: 0 <= j < i ==> !IsOpenRecord(s, queue[j], userOnly)
    ensures FirstOpenRecord(s, queue, userOnly) == Some(queue[i])
  {
    hide IsOpenRecord;
    if i > 0 {
      assert forall j :: 0 <= j < i - 1 ==> queue[1..][j] == queue[j + 1];
      FirstIs(s, queue[1..], userOnly, i - 1);
    }
  }

  lemma {:induction false} FirstIsNone(s: State, queue: seq<OutPoint>, userOnly: bool)
    requires forall op :: op in queue ==> !IsOpenRecord(s, op, userOnly)
    ensures FirstOpenRecord(s, queue, userOnly).None?
  {
    hide IsOpenRecord;
    if queue != [] {
      FirstIsNone(s, queue[1..], userOnly);
    }
  }

  /** The engine's test for an open tip, on the snapshot, is the one on the store. */
  lemma TipIsOpen(s: State, i: nat)
    requires Inv(s) && i < |s.speedups|
    ensures |SpeedupRecords(s)| == |s.speedups|
    ensures s.speedups[i] in s.txs && SpeedupRecords(s)[i] == s.txs[s.speedups[i]]
    ensures IsOpenTip(SpeedupRecords(s)[i], SpeedupRecords(s)) <==> OpenSpeedup(s, s.speedups[i])
    ensures s.txs[s.speedups[i]].txid == s.speedups[i] && s.txs[s.speedups[i]].kind.Speedup?
    ensures |s.txs[s.speedups[i]].tx.outputs| > 0
  {
    hide Inv, SpeedupRecords, Masked, InputsOk, KeysOk, ListOk, LineageOk, RbfOk, QueueOk, LifecycleOk, ParentsOk, ReservedOk;
    hide CoordinatedTx.HasLiveReplacement;
    ListedSnapshot(s);
    InvParts(s);
    ListedIsSpeedup(s, s.speedups[i]);
    MaskIsReplacement(s, s.speedups[i]);
    HasOutputs(s, s.speedups[i]);
  }

  lemma HasOutputs(s: State, t: Txid)
    requires InputsOk(s) && IsSpeedup(s, t)
    ensures |s.txs[t].tx.outputs| > 0
  {
    assert InputsOf(s, t);
  }

  lemma ListedIsNoRecord(s: State, op: OutPoint)
    requires QueueOk(s) && op.txid in s.speedups
    ensures op !in s.funding
  {
    assert op in s.funding ==> RecordOk(s, op);
  }

  lemma RecordNamesItself(s: State, op: OutPoint)
    requires QueueOk(s) && op in s.funding
    ensures s.funding[op].utxo.op == op
  {
    assert RecordOk(s, op);
  }

  // ---------------------------------------------------------------- get_funding

  /** The change output of `t`, its last one. */
  function ChangeOf(s: State, t: Txid): Utxo
    requires t in s.txs && |s.txs[t].tx.outputs| > 0
  {
    var outputs := s.txs[t].tx.outputs;
    Utxo(OutPoint(t, |outputs| - 1), outputs[|outputs| - 1])
  }

  /** While some listed speedup is open, the last one pays with its change, and only its mark is set. */
  lemma TipChosen(s: State, t: Txid)
    requires Inv(s) && LastOpen(s, t)
    ensures |s.txs[t].tx.outputs| > 0
    ensures var (s', chosen) := GetFunding(s);
            var r := s.txs[t];
      && chosen == Some((ChangeOf(s, t), true))
      && s' == s.(txs := s.txs[t := r.(kind := Speedup(r.kind.speedup.(context := r.kind.speedup.context.(spent := true))))])
  {
    hide Inv, SpeedupRecords, OpenSpeedup, IsOpenTip, KeysOk, ListOk, LineageOk, RbfOk, QueueOk, InputsOk, LifecycleOk;
    hide ParentsOk, ReservedOk;
    InvParts(s);
    var i :| 0 <= i < |s.speedups| && s.speedups[i] == t && OpenSpeedup(s, t)
             && forall j :: i < j < |s.speedups| ==> !OpenSpeedup(s, s.speedups[j]);
    TipIsOpen(s, i);
    forall j | i < j < |s.speedups| ensures !IsOpenTip(SpeedupRecords(s)[j], SpeedupRecords(s)) {
      TipIsOpen(s, j);
    }
    LatestIs(SpeedupRecords(s), |s.speedups|, i);
    ListedIsNoRecord(s, ChangeOf(s, t).op);
  }

  /** Otherwise the first unspent record of the queue is handed out, with its origin, and only its mark is set. */
  lemma RecordChosen(s: State, op: OutPoint)
    requires Inv(s) && NoneOpen(s) && FirstOpenOf(s, op)
    ensures op in s.funding
    ensures var (s', chosen) := GetFunding(s);
      && chosen == Some((s.funding[op].utxo, s.funding[op].fromSpeedup))
      && s' == s.(funding := s.funding[op := s.funding[op].(spent := true)])
  {
    hide Inv, KeysOk, ListOk, LineageOk, RbfOk, QueueOk, InputsOk, LifecycleOk, ParentsOk, ReservedOk, SpeedupRecords;
    InvParts(s);
    NoTip(s);
    var i :| 0 <= i < |s.queue| && s.queue[i] == op && OpenRecord(s, op) && forall j :: 0 <= j < i ==> !OpenRecord(s, s.queue[j]);
    FirstIs(s, s.queue, false, i);
    RecordNamesItself(s, op);
  }

  lemma NoTip(s: State)
    requires Inv(s) && NoneOpen(s)
    ensures LatestOpenTip(SpeedupRecords(s), |SpeedupRecords(s)|).None?
  {
    hide Inv, SpeedupRecords, OpenSpeedup, IsOpenTip;
    ListedSnapshot(s);
    forall i | 0 <= i < |s.speedups| ensures !IsOpenTip(SpeedupRecords(s)[i], SpeedupRecords(s)) {
      TipIsOpen(s, i);
    }
    LatestIsNone(SpeedupRecords(s), |s.speedups|);
  }

  lemma {:induction false} SomeLastOpen(s: State, n: nat)
    requires n <= |s.speedups| && forall j :: n <= j < |s.speedups| ==> !OpenSpeedup(s, s.speedups[j])
    ensures NoneOpen(s) || exists t :: LastOpen(s, t)
    decreases n
  {
    hide OpenSpeedup;
    if n > 0 {
      if OpenSpeedup(s, s.speedups[n - 1]) {
        assert LastOpen(s, s.speedups[n - 1]);
      } else {
        SomeLastOpen(s, n - 1);
      }
    }
  }

  lemma {:induction false} SomeFirstOpen(s: State, i: nat)
    requires i <= |s.queue| && forall j :: 0 <= j < i ==> !OpenRecord(s, s.queue[j])
    ensures (forall op :: op in s.queue ==> !OpenRecord(s, op)) || exists op :: FirstOpenOf(s, op)
    decreases |s.queue| - i
  {
    hide OpenRecord;
    if i < |s.queue| {
      if OpenRecord(s, s.queue[i]) {
        assert FirstOpenOf(s, s.queue[i]);
      } else {
        SomeFirstOpen(s, i + 1);
      }
    }
  }

  /** There is no funding exactly when no listed speedup is open and every record of the queue is spent; with
      `TipChosen` and `RecordChosen` this says for every store what `get_funding` answers. */
  lemma NothingChosen(s: State)
    requires Inv(s)
    ensures GetFunding(s).1.None? <==> NoneOpen(s) && forall op :: op in s.queue ==> s.funding[op].spent
    ensures GetFunding(s).1.None? ==> GetFunding(s).0 == s
    ensures GetFunding(s).1.Some? ==>
              (exists t :: LastOpen(s, t)) || (NoneOpen(s) && exists op :: FirstOpenOf(s, op))
  {
    hide Inv, KeysOk, ListOk, LineageOk, RbfOk, InputsOk, LifecycleOk, ParentsOk, ReservedOk, SpeedupRecords, NoneOpen;
    hide LastOpen, FirstOpenOf, GetFunding;
    InvParts(s);
    SomeLastOpen(s, |s.speedups|);
    SomeFirstOpen(s, 0);
    if t :| LastOpen(s, t) {
      TipChosen(s, t);
      LastIsOpen(s, t);
    } else if op :| FirstOpenOf(s, op) {
      RecordChosen(s, op);
      FirstIsOpen(s, op);
    } else {
      NoTip(s);
      NoRecord(s);
    }
  }

  lemma LastIsOpen(s: State, t: Txid)
    requires LastOpen(s, t)
    ensures !NoneOpen(s)
  {}

  lemma FirstIsOpen(s: State, op: OutPoint)
    requires FirstOpenOf(s, op)
    ensures op in s.queue && op in s.funding && !s.funding[op].spent
  {}

  lemma NoRecord(s: State)
    requires LatestOpenTip(SpeedupRecords(s), |SpeedupRecords(s)|).None?
    requires forall op :: op in s.queue ==> !OpenRecord(s, op)
    ensures GetFunding(s) == (s, None)
  {
    hide SpeedupRecords, LatestOpenTip;
    FirstIsNone(s, s.queue, false);
  }

  // ---------------------------------------------------------------- get_combine_funding

  /** The second input is the first unspent user-provided record, and only its mark is set. */
  lemma CombineChosen(s: State, op: OutPoint)
    requires Inv(s) && FirstUserOf(s, op)
    ensures op in s.funding
    ensures GetCombineFunding(s)
            == (s.(funding := s.funding[op := s.funding[op].(spent := true)]), Some(s.funding[op].utxo))
  {
    hide Inv, KeysOk, ListOk, LineageOk, RbfOk, QueueOk, InputsOk, LifecycleOk, ParentsOk, ReservedOk;
    InvParts(s);
    var i :| 0 <= i < |s.queue| && s.queue[i] == op && UserRecord(s, op) && forall j :: 0 <= j < i ==> !UserRecord(s, s.queue[j]);
    FirstIs(s, s.queue, true, i);
    RecordNamesItself(s, op);
  }

  lemma {:induction false} SomeFirstUser(s: State, i: nat)
    requires i <= |s.queue| && forall j :: 0 <= j < i ==> !UserRecord(s, s.queue[j])
    ensures (forall op :: op in s.queue ==> !UserRecord(s, op)) || exists op :: FirstUserOf(s, op)
    decreases |s.queue| - i
  {
    hide UserRecord;
    if i < |s.queue| {
      if UserRecord(s, s.queue[i]) {
        assert FirstUserOf(s, s.queue[i]);
      } else {
        SomeFirstUser(s, i + 1);
      }
    }
  }

  /** There is no second input exactly when every user-provided record of the queue is spent. */
  lemma NothingToCombine(s: State)
    requires Inv(s)
    ensures GetCombineFunding(s).1.None? <==> forall op :: op in s.queue ==> s.funding[op].spent || s.funding[op].fromSpeedup
    ensures GetCombineFunding(s).1.None? ==> GetCombineFunding(s).0 == s
    ensures GetCombineFunding(s).1.Some? ==> exists op :: FirstUserOf(s, op)
  {
    hide Inv, KeysOk, ListOk, LineageOk, RbfOk, InputsOk, LifecycleOk, ParentsOk, ReservedOk, FirstUserOf;
    InvParts(s);
    SomeFirstUser(s, 0);
    if op :| FirstUserOf(s, op) {
      CombineChosen(s, op);
      FirstUserIsOpen(s, op);
    } else {
      FirstIsNone(s, s.queue, true);
    }
  }

  lemma FirstUserIsOpen(s: State, op: OutPoint)
    requires FirstUserOf(s, op)
    ensures op in s.queue && UserRecord(s, op)
  {}
}

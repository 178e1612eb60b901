/** Reserving and releasing funding (src/core/funding.rs) as functions of the state. */
module Funding {
  import opened Types
  import opened States

  /** A live, unreplaced, unspent speedup: its change may fund the next one. */
  predicate IsOpenTip(r: CoordinatedTx, all: seq<CoordinatedTx>) {
    r.kind.Speedup? && |r.tx.outputs| > 0 && r.state.OnNode() && !r.HasLiveReplacement(all) && !r.IsSpent()
  }

  /** Pass 1: the latest open tip among the first `n` speedups. */
  function LatestOpenTip(all: seq<CoordinatedTx>, n: nat): (r: Option<CoordinatedTx>)
    requires n <= |all|
    ensures r.Some? ==> r.value in all && IsOpenTip(r.value, all)
  {
    if n == 0 then None
    else if IsOpenTip(all[n - 1], all) then Some(all[n - 1])
    else LatestOpenTip(all, n - 1)
  }

  predicate IsOpenRecord(s: State, op: OutPoint, userOnly: bool) {
    op in s.funding && !s.funding[op].spent && !(userOnly && s.funding[op].fromSpeedup)
  }

  /** Pass 2: the first unspent record of the queue. */
  function FirstOpenRecord(s: State, queue: seq<OutPoint>, userOnly: bool): (r: Option<OutPoint>)
    ensures r.Some? ==> r.value in queue && IsOpenRecord(s, r.value, userOnly)
  {
    if queue == [] then None
    else if IsOpenRecord(s, queue[0], userOnly) then Some(queue[0])
    else FirstOpenRecord(s, queue[1..], userOnly)
  }

  /** What `get_funding` hands out, and whether it is speedup-derived. */
  function ChosenFunding(s: State): Option<(Utxo, bool)> {
    var all := SpeedupRecords(s);
    var tip := LatestOpenTip(all, |all|);
    if tip.Some? then Some((tip.value.ChangeUtxo(), true))
    else
      var op := FirstOpenRecord(s, s.queue, false);
      if op.Some? then Some((s.funding[op.value].utxo, s.funding[op.value].fromSpeedup)) else None
  }

  function GetFunding(s: State): (State, Option<(Utxo, bool)>) {
    var chosen := ChosenFunding(s);
    (if chosen.Some? then SetSpent(s, chosen.value.0.op, true) else s, chosen)
  }

  function GetCombineFunding(s: State): (State, Option<Utxo>) {
    var op := FirstOpenRecord(s, s.queue, true);
    if op.Some? then (SetSpent(s, s.funding[op.value].utxo.op, true), Some(s.funding[op.value].utxo)) else (s, None)
  }

  function ReleaseMarks(s: State, us: seq<Utxo>): State
    decreases |us|
  {
    if us == [] then s else ReleaseMarks(SetSpent(s, us[0].op, false), us[1..])
  }
}

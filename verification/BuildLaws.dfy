/** Building a speedup is all-or-nothing, pays for its size, and never takes funding somebody uses
    (src/core/funding.rs:74-143, src/engines/speedup_engine.rs:514-614). */
module BuildLaws {
  import opened Types
  import opened Oracles
  import opened States
  import opened Fees
  import opened Funding
  import opened Failures
  import opened Engines
  import opened FeeLaws
  import opened Invariants
  import opened Evolution
  import opened FailureLaws
  import opened GrowthLaws

  // ---------------------------------------------------------------- handing out

  /** `op` is on offer: an unspent queue record, or the unspent change of a listed speedup. */
  predicate OnOffer(s: State, op: OutPoint) {
    if op in s.funding then !s.funding[op].spent
    else
      && op.txid in s.speedups && IsSpeedup(s, op.txid)
      && !s.txs[op.txid].IsSpent() && op == s.txs[op.txid].ChangeOp()
  }

  /** What is on offer is used by no live speedup. */
  lemma OfferIsUnused(s: State, op: OutPoint, x: Txid)
    requires ReservedOk(s) && OnOffer(s, op) && Live(s, x)
    ensures !Uses(s, x, op)
  {
    assert Uses(s, x, op) ==> Reserved(s, op);
  }

  lemma MaskIsReplacement(s: State, t: Txid)
    requires KeysOk(s) && ListOk(s) && t in s.txs
    ensures Masked(s, t) == s.txs[t].HasLiveReplacement(SpeedupRecords(s))
  {
    var all := SpeedupRecords(s);
    if r :| r in s.speedups && Live(s, r) && Supersedes(s, r, t) {
      assert s.txs[r] in all;
      var i :| 0 <= i < |all| && all[i] == s.txs[r];
      assert !all[i].state.Failed? && all[i].Supersedes(t);
    }
    if i :| 0 <= i < |all| && !all[i].state.Failed? && all[i].Supersedes(s.txs[t].txid) {
      assert all[i] in all;
      var r :| r in s.speedups && r in s.txs && s.txs[r] == all[i];
      assert Live(s, r) && Supersedes(s, r, t);
    }
  }

  /** `get_funding` hands out an offered outpoint, and says whether a speedup produced it. */
  lemma ChosenIsOnOffer(s: State)
    requires KeysOk(s) && ListOk(s) && QueueOk(s) && LineageOk(s)
    ensures ChosenFunding(s).Some? ==>
              OnOffer(s, ChosenFunding(s).value.0.op)
              && (ChosenFunding(s).value.1 <==> ChosenFunding(s).value.0.op.txid in s.lineage)
  {
    var all := SpeedupRecords(s);
    var tip := LatestOpenTip(all, |all|);
    if tip.Some? {
      var t :| t in s.speedups && t in s.txs && s.txs[t] == tip.value;
      assert tip.value.ChangeUtxo().op == tip.value.ChangeOp() && tip.value.ChangeOp().txid == t;
      assert tip.value.ChangeOp() in s.funding ==> RecordOk(s, tip.value.ChangeOp());
    } else {
      var op := FirstOpenRecord(s, s.queue, false);
      if op.Some? {
        assert RecordOk(s, op.value);
      }
    }
  }

  lemma CombineIsOnOffer(s: State)
    requires QueueOk(s)
    ensures GetCombineFunding(s).1.Some? ==>
              var op := GetCombineFunding(s).1.value.op;
              op in s.funding && !s.funding[op].spent && !s.funding[op].fromSpeedup && op.txid !in s.lineage
              && GetCombineFunding(s).0 == SetSpent(s, op, true)
    ensures GetCombineFunding(s).1.None? ==> GetCombineFunding(s).0 == s
  {
    var op := FirstOpenRecord(s, s.queue, true);
    if op.Some? {
      assert RecordOk(s, op.value);
    }
  }

  // ---------------------------------------------------------------- claiming and giving back

  function Claim(s: State, us: seq<Utxo>): State
    decreases |us|
  {
    if us == [] then s else SetSpent(Claim(s, us[..|us| - 1]), us[|us| - 1].op, true)
  }

  /** At most two offers, a second one from the queue. */
  predicate Claimable(s: State, us: seq<Utxo>) {
    && |us| <= 2
    && (forall i :: 0 <= i < |us| ==> OnOffer(s, us[i].op))
    && (|us| == 2 ==> us[1].op in s.funding && us[0].op != us[1].op)
  }

  lemma GiveBackOne(s: State, op: OutPoint)
    requires OnOffer(s, op)
    ensures SetSpent(SetSpent(s, op, true), op, false) == s
  {
    if op in s.funding {
      var f := s.funding[op := s.funding[op].(spent := true)];
      assert f[op := f[op].(spent := false)] == s.funding;
    } else {
      var r := s.txs[op.txid];
      var r' := r.WithContext(r.kind.speedup.context.(spent := true));
      assert r'.WithContext(r'.kind.speedup.context.(spent := false)) == r;
      assert s.txs[op.txid := r'][op.txid := r] == s.txs;
    }
  }

  lemma GiveBackFirst(s: State, a: OutPoint, b: OutPoint)
    requires OnOffer(s, a) && b in s.funding && a != b
    ensures SetSpent(SetSpent(SetSpent(s, a, true), b, true), a, false) == SetSpent(s, b, true)
  {
    GiveBackOne(s, a);
    var s1 := SetSpent(s, a, true);
    var s2 := SetSpent(s1, b, true);
    if a in s.funding {
      assert SetSpent(s2, a, false).funding == SetSpent(s, b, true).funding;
    } else {
      assert SetSpent(s2, a, false).txs == SetSpent(s1, a, false).txs;
    }
  }

  /** Releasing what was claimed restores the state exactly. */
  lemma GiveBackRestores(s: State, us: seq<Utxo>)
    requires Claimable(s, us)
    ensures ReleaseMarks(Claim(s, us), us) == s
  {
    if |us| == 1 {
      assert us[..0] == [] && us[1..] == [];
      assert Claim(s, us) == SetSpent(s, us[0].op, true);
      GiveBackOne(s, us[0].op);
      assert ReleaseMarks(Claim(s, us), us) == ReleaseMarks(SetSpent(Claim(s, us), us[0].op, false), us[1..]);
    } else if |us| == 2 {
      assert us[..1] == [us[0]] && [us[0]][..0] == [] && us[1..] == [us[1]] && [us[1]][1..] == [];
      assert Claim(s, [us[0]]) == SetSpent(Claim(s, []), us[0].op, true);
      assert Claim(s, us) == SetSpent(SetSpent(s, us[0].op, true), us[1].op, true);
      GiveBackFirst(s, us[0].op, us[1].op);
      GiveBackOne(s, us[1].op);
      assert ReleaseMarks(Claim(s, us), us) == ReleaseMarks(SetSpent(s, us[1].op, true), [us[1]]);
      assert ReleaseMarks(SetSpent(s, us[1].op, true), [us[1]]) == ReleaseMarks(s, []);
    }
  }

  // ---------------------------------------------------------------- the build loop

  ghost predicate BuiltBy(b: Builder, r: BuildResult) {
    exists call: nat :: b.build(call, r.fundingInputs, r.fee) == Built(r.txid, r.tx)
  }

  /** On failure every mark is as on entry; on success exactly the inputs added to `inputs[..inherited]` were
      claimed, each of them on offer before; the inputs cover fee and dust. */
  ghost predicate BuildContract(s0: State, cfg: Config, b: Builder, q: BuildRequest, inputs: seq<Utxo>, inherited: nat,
                                s: State, r: Option<BuildResult>)
    requires inherited <= |inputs| && 1 <= |inputs|
  {
    if r.None? then s == s0.(news := s.news)
    else
      var x := r.value;
      && inputs <= x.fundingInputs
      && |x.fundingInputs| <= 2
      && s == Claim(s0, x.fundingInputs[inherited..])
      && Claimable(s0, x.fundingInputs[inherited..])
      && (|x.fundingInputs| > |inputs| ==>
            x.fundingInputs[1].op in s0.funding && !s0.funding[x.fundingInputs[1].op].fromSpeedup)
      && TotalAmount(x.fundingInputs) >= x.fee + cfg.dustLimit
      && PaysForSize(cfg, q, x)
      && BuiltBy(b, x)
  }

  lemma ClaimAppend(s: State, us: seq<Utxo>, u: Utxo)
    ensures Claim(s, us + [u]) == SetSpent(Claim(s, us), u.op, true)
  {
    assert (us + [u])[..|us + [u]| - 1] == us;
  }

  /** A second claim after the first one: still on offer in the starting state. */
  lemma CombineExtends(s0: State, us: seq<Utxo>, extra: Utxo)
    requires Claimable(s0, us) && |us| <= 1
    requires var s := Claim(s0, us);
             extra.op in s.funding && !s.funding[extra.op].spent && !s.funding[extra.op].fromSpeedup
    ensures Claimable(s0, us + [extra]) && extra.op in s0.funding && !s0.funding[extra.op].fromSpeedup
  {
    if |us| == 1 {
      assert us[..0] == [];
      assert Claim(s0, us) == SetSpent(s0, us[0].op, true);
    }
  }

  lemma {:induction false} BuildLoopContract(s0: State, s: State, cfg: Config, b: Builder, q: BuildRequest,
                                             inputs: seq<Utxo>, inherited: nat, primaryIsSpeedup: bool, childVsize: nat,
                                             calls: nat)
    requires inherited <= |inputs| && childVsize <= MAX_SPEEDUP_VSIZE && 1 <= |inputs| <= 2
    requires QueueOk(s) && s == Claim(s0, inputs[inherited..]) && Claimable(s0, inputs[inherited..])
    requires 0 < cfg.dustLimit
    ensures var (s', r) := BuildLoop(s, cfg, b, q, inputs, inherited, primaryIsSpeedup, childVsize, calls);
            BuildContract(s0, cfg, b, q, inputs, inherited, s', r)
    decreases if |inputs| == 1 then 1 else 0, MAX_SPEEDUP_VSIZE - childVsize
  {
    hide QueueOk, ComputeSpeedupFee, Claim, OnOffer, GetCombineFunding, ReleaseMarks;
    var vsize: nat := if childVsize == 0 then b.dummy(calls, inputs) else childVsize;
    var (fee, capped) := ComputeSpeedupFee(cfg, Sum(q.parentVsizes), vsize, q.bump, q.feeRate, q.isRbf, q.chainDiff);
    if SaturatingSub(TotalAmount(inputs), fee) < cfg.dustLimit {
      CombineIsOnOffer(s);
      var (s', extra) := if |inputs| == 1 && primaryIsSpeedup then GetCombineFunding(s) else (s, None);
      if extra.Some? {
        var more := inputs + [extra.value];
        assert more[inherited..] == inputs[inherited..] + [extra.value];
        CombineExtends(s0, inputs[inherited..], extra.value);
        ClaimAppend(s0, inputs[inherited..], extra.value);
        SetSpentKeepsQueue(s, extra.value.op);
        BuildLoopContract(s0, s', cfg, b, q, more, inherited, primaryIsSpeedup, 0, calls + 2);
        CombinedContract(s0, cfg, b, q, inputs, inherited, extra.value,
                         BuildLoop(s', cfg, b, q, more, inherited, primaryIsSpeedup, 0, calls + 2));
      } else {
        GiveBackRestores(s0, inputs[inherited..]);
      }
    } else {
      var built := b.build(calls + 1, inputs, fee);
      if vsize < built.tx.vsize {
        BuildLoopContract(s0, s, cfg, b, q, inputs, inherited, primaryIsSpeedup, built.tx.vsize, calls + 2);
      } else {
        var r := BuildResult(built.txid, built.tx, fee, capped, inputs, vsize);
        assert PaysForSize(cfg, q, r);
        assert b.build(calls + 1, r.fundingInputs, r.fee) == Built(r.txid, r.tx);
        assert BuiltBy(b, r);
      }
    }
  }

  lemma CombinedContract(s0: State, cfg: Config, b: Builder, q: BuildRequest, inputs: seq<Utxo>, inherited: nat, extra: Utxo,
                         out: (State, Option<BuildResult>))
    requires inherited <= |inputs| && |inputs| == 1
    requires extra.op in s0.funding && !s0.funding[extra.op].fromSpeedup
    requires BuildContract(s0, cfg, b, q, inputs + [extra], inherited, out.0, out.1)
    ensures BuildContract(s0, cfg, b, q, inputs, inherited, out.0, out.1)
  {
    hide Claimable, PaysForSize, BuiltBy;
    if out.1.Some? {
      assert (inputs + [extra])[1] == extra;
    }
  }

  lemma SetSpentKeepsQueue(s: State, op: OutPoint)
    requires QueueOk(s)
    ensures QueueOk(SetSpent(s, op, true))
  {
    SetSpentFrame(s, op, true);
    EvolvesKeepsQueue(s, SetSpent(s, op, true));
  }

  /** The whole builder: a CPFP starts from the offer `get_funding` picks, an RBF from inherited inputs. */
  lemma BuildSpeedupContract(s: State, cfg: Config, b: Builder, q: BuildRequest, rbfInputs: Option<seq<Utxo>>)
    requires KeysOk(s) && ListOk(s) && QueueOk(s) && LineageOk(s) && 0 < cfg.dustLimit
    requires rbfInputs.Some? ==> 1 <= |rbfInputs.value| <= 2
    ensures var (s', r) := BuildSpeedup(s, cfg, b, q, rbfInputs);
            match rbfInputs
            case Some(inputs) => BuildContract(s, cfg, b, q, inputs, |inputs|, s', r)
            case None =>
              if ChosenFunding(s).None? then s' == s.(news := s'.news) && r.None?
              else BuildContract(s, cfg, b, q, [ChosenFunding(s).value.0], 0, s', r)
  {
    hide KeysOk, ListOk, LineageOk, ChosenFunding, BuildContract;
    match rbfInputs
    case Some(inputs) =>
      assert inputs[|inputs|..] == [];
      BuildLoopContract(s, s, cfg, b, q, inputs, |inputs|, inputs != [] && IsSpeedupDerived(s, inputs[0].op), 0, 0);
    case None =>
      ChosenIsOnOffer(s);
      var chosen := ChosenFunding(s);
      if chosen.Some? {
        var u := chosen.value.0;
        assert [u][..0] == [] && [u][0..] == [u];
        assert Claim(s, [u]) == SetSpent(Claim(s, []), u.op, true);
        SetSpentKeepsQueue(s, u.op);
        BuildLoopContract(s, SetSpent(s, u.op, true), cfg, b, q, [u], 0, chosen.value.1, 0, 0);
      }
  }

  // ---------------------------------------------------------------- claims keep the invariant

  lemma {:induction false} ClaimKeepsInv(s: State, us: seq<Utxo>)
    requires Inv(s)
    ensures Inv(Claim(s, us)) && OnlyMarksDiffer(s, Claim(s, us))
    decreases |us|
  {
    hide Inv, OnlyMarksDiffer;
    if us == [] {
      MarksDiffReflexive(s);
    } else {
      ClaimKeepsInv(s, us[..|us| - 1]);
      SetSpentKeepsInv(Claim(s, us[..|us| - 1]), us[|us| - 1].op, true);
      MarksDiffTransitive(s, Claim(s, us[..|us| - 1]), Claim(s, us));
    }
  }

  /** Once claimed, an offer is reserved, and a later claim does not undo it. */
  lemma OfferReserved(s: State, op: OutPoint)
    requires QueueOk(s) && OnOffer(s, op)
    ensures Reserved(SetSpent(s, op, true), op)
  {
    assert op in s.funding ==> RecordOk(s, op);
  }

  lemma ReservedStays(s: State, op: OutPoint, other: OutPoint)
    requires Reserved(s, op)
    ensures Reserved(SetSpent(s, other, true), op)
  {}

  lemma OfferStays(s: State, op: OutPoint, other: OutPoint)
    requires op in s.funding && op != other
    ensures op in SetSpent(s, other, true).funding && SetSpent(s, other, true).funding[op] == s.funding[op]
  {}

  lemma ClaimReserves(s: State, us: seq<Utxo>, op: OutPoint)
    requires QueueOk(s) && Claimable(s, us) && op in Ops(us)
    ensures Reserved(Claim(s, us), op)
  {
    hide QueueOk, Reserved;
    if |us| == 1 {
      assert us[..0] == [] && Claim(s, us) == SetSpent(s, us[0].op, true);
      OfferReserved(s, us[0].op);
    } else {
      assert us[..1] == [us[0]] && [us[0]][..0] == [];
      assert Claim(s, [us[0]]) == SetSpent(Claim(s, []), us[0].op, true);
      var first := SetSpent(s, us[0].op, true);
      assert Claim(s, us) == SetSpent(first, us[1].op, true);
      OfferReserved(s, us[0].op);
      ReservedStays(first, us[0].op, us[1].op);
      SetSpentKeepsQueue(s, us[0].op);
      OfferStays(s, us[1].op, us[0].op);
      OfferReserved(first, us[1].op);
    }
  }
}

/** Which inputs a build ends with and why a build ends without a transaction (src/engines/speedup_engine.rs:514-614). */
module BuildChoices {
  import opened Types
  import opened Oracles
  import opened States
  import opened Fees
  import opened Funding
  import opened Engines
  import opened Invariants
  import opened Evolution
  import opened BuildLaws
  import opened CreationLaws
  import opened ChoiceLaws

  /** A size the builder reported for a transaction over `inputs`. */
  ghost predicate Measured(b: Builder, inputs: seq<Utxo>, vsize: nat) {
    (exists call: nat :: b.dummy(call, inputs) == vsize) || (exists call: nat, fee: nat :: b.build(call, inputs, fee).tx.vsize == vsize)
  }

  /** At that size `inputs` do not pay the fee and leave a change output above dust. */
  predicate TooShort(cfg: Config, q: BuildRequest, inputs: seq<Utxo>, vsize: nat) {
    TotalAmount(inputs) < ComputeSpeedupFee(cfg, Sum(q.parentVsizes), vsize, q.bump, q.feeRate, q.isRbf, q.chainDiff).0 + cfg.dustLimit
  }

  ghost predicate RunsShort(cfg: Config, b: Builder, q: BuildRequest, inputs: seq<Utxo>) {
    exists vsize: nat :: Measured(b, inputs, vsize) && TooShort(cfg, q, inputs, vsize)
  }

  /** A second input may be added: the only one so far is a speedup's change. */
  predicate MayCombine(inputs: seq<Utxo>, primaryIsSpeedup: bool) {
    |inputs| == 1 && primaryIsSpeedup
  }

  /** The inputs a build over `inputs` ends with: these, or, when these ran short and may be combined, these and the first
      unspent user-provided record. */
  ghost predicate EndsWith(s: State, cfg: Config, b: Builder, q: BuildRequest, inputs: seq<Utxo>, primaryIsSpeedup: bool, us: seq<Utxo>) {
    || us == inputs
    || (&& MayCombine(inputs, primaryIsSpeedup)
        && RunsShort(cfg, b, q, inputs)
        && exists op :: FirstUserOf(s, op) && op in s.funding && us == inputs + [s.funding[op].utxo])
  }

  /** Nothing is left to add to `us`. */
  ghost predicate Exhausted(s: State, inputs: seq<Utxo>, primaryIsSpeedup: bool, us: seq<Utxo>) {
    us == inputs && MayCombine(inputs, primaryIsSpeedup) ==> forall op :: !FirstUserOf(s, op)
  }

  /** Outcome of a build: it succeeds with inputs that pay, or fails because all it could use ran short, and says so. */
  ghost predicate BuildDecided(s: State, cfg: Config, b: Builder, q: BuildRequest, inputs: seq<Utxo>, primaryIsSpeedup: bool,
                               s': State, r: Option<BuildResult>)
  {
    match r
    case Some(x) =>
      EndsWith(s, cfg, b, q, inputs, primaryIsSpeedup, x.fundingInputs) && !TooShort(cfg, q, x.fundingInputs, x.estimate)
    case None =>
      exists us, required :: EndsWith(s, cfg, b, q, inputs, primaryIsSpeedup, us) && Exhausted(s, inputs, primaryIsSpeedup, us)
                             && RunsShort(cfg, b, q, us)
                             && TotalAmount(us) < required && InsufficientFunds(TotalAmount(us), required) in s'.news
  }

  lemma NoSecondInput(s: State)
    requires Inv(s) && GetCombineFunding(s).1.None?
    ensures forall op :: !FirstUserOf(s, op)
  {
    hide Inv, FirstUserOf;
    NothingToCombine(s);
    forall op ensures !FirstUserOf(s, op) {
      if FirstUserOf(s, op) {
        FirstUserIsOpen(s, op);
      }
    }
  }

  lemma SecondInputIs(s: State)
    requires Inv(s) && GetCombineFunding(s).1.Some?
    ensures exists op :: FirstUserOf(s, op) && op in s.funding && GetCombineFunding(s).1.value == s.funding[op].utxo
  {
    hide Inv, FirstUserOf;
    NothingToCombine(s);
    var op :| FirstUserOf(s, op);
    CombineChosen(s, op);
  }

  lemma FailureNoted(s: State, cfg: Config, b: Builder, q: BuildRequest, inputs: seq<Utxo>, primaryIsSpeedup: bool, vsize: nat,
                     s': State)
    requires Measured(b, inputs, vsize) && TooShort(cfg, q, inputs, vsize)
    requires Exhausted(s, inputs, primaryIsSpeedup, inputs)
    requires var fee := ComputeSpeedupFee(cfg, Sum(q.parentVsizes), vsize, q.bump, q.feeRate, q.isRbf, q.chainDiff).0;
             InsufficientFunds(TotalAmount(inputs), fee + cfg.dustLimit) in s'.news
    ensures BuildDecided(s, cfg, b, q, inputs, primaryIsSpeedup, s', None)
  {
    hide ComputeSpeedupFee, Measured, Exhausted;
    assert EndsWith(s, cfg, b, q, inputs, primaryIsSpeedup, inputs);
    assert RunsShort(cfg, b, q, inputs);
  }

  lemma {:induction false} LoopDecided(s: State, cfg: Config, b: Builder, q: BuildRequest, inputs: seq<Utxo>, inherited: nat,
                                       primaryIsSpeedup: bool, childVsize: nat, calls: nat)
    requires Inv(s) && 0 < cfg.dustLimit && inherited <= |inputs| && childVsize <= MAX_SPEEDUP_VSIZE
    requires childVsize != 0 ==> Measured(b, inputs, childVsize)
    ensures var (s', r) := BuildLoop(s, cfg, b, q, inputs, inherited, primaryIsSpeedup, childVsize, calls);
            BuildDecided(s, cfg, b, q, inputs, primaryIsSpeedup, s', r)
    decreases if |inputs| == 1 then 1 else 0, MAX_SPEEDUP_VSIZE - childVsize
  {
    hide Inv, ComputeSpeedupFee, FirstUserOf, GetCombineFunding, ReleaseMarks;
    var vsize: nat := if childVsize == 0 then b.dummy(calls, inputs) else childVsize;
    var (fee, capped) := ComputeSpeedupFee(cfg, Sum(q.parentVsizes), vsize, q.bump, q.feeRate, q.isRbf, q.chainDiff);
    assert Measured(b, inputs, vsize);
    if SaturatingSub(TotalAmount(inputs), fee) < cfg.dustLimit {
      assert TooShort(cfg, q, inputs, vsize);
      if MayCombine(inputs, primaryIsSpeedup) && GetCombineFunding(s).1.Some? {
        SecondInputIs(s);
        CombineKeepsInv(s);
        var (s', extra) := GetCombineFunding(s);
        LoopDecided(s', cfg, b, q, inputs + [extra.value], inherited, primaryIsSpeedup, 0, calls + 2);
        CombinedDecided(s, s', cfg, b, q, inputs, extra.value, primaryIsSpeedup,
                        BuildLoop(s', cfg, b, q, inputs + [extra.value], inherited, primaryIsSpeedup, 0, calls + 2));
      } else {
        if MayCombine(inputs, primaryIsSpeedup) {
          NoSecondInput(s);
        }
        FailureNoted(s, cfg, b, q, inputs, primaryIsSpeedup, vsize,
                     BuildLoop(s, cfg, b, q, inputs, inherited, primaryIsSpeedup, childVsize, calls).0);
      }
    } else {
      var built := b.build(calls + 1, inputs, fee);
      if vsize < built.tx.vsize {
        LoopDecided(s, cfg, b, q, inputs, inherited, primaryIsSpeedup, built.tx.vsize, calls + 2);
      } else {
        assert !TooShort(cfg, q, inputs, vsize);
      }
    }
  }

  lemma CombineKeepsInv(s: State)
    requires Inv(s)
    ensures Inv(GetCombineFunding(s).0)
  {
    hide Inv, FirstOpenRecord, SetSpent;
    var op := FirstOpenRecord(s, s.queue, true);
    if op.Some? {
      SetSpentKeepsInv(s, s.funding[op.value].utxo.op, true);
    }
  }

  /** Two inputs are never combined with a third. */
  lemma CombinedDecided(s: State, s': State, cfg: Config, b: Builder, q: BuildRequest, inputs: seq<Utxo>, extra: Utxo,
                        primaryIsSpeedup: bool, out: (State, Option<BuildResult>))
    requires MayCombine(inputs, primaryIsSpeedup) && RunsShort(cfg, b, q, inputs)
    requires exists op :: FirstUserOf(s, op) && op in s.funding && extra == s.funding[op].utxo
    requires BuildDecided(s', cfg, b, q, inputs + [extra], primaryIsSpeedup, out.0, out.1)
    ensures BuildDecided(s, cfg, b, q, inputs, primaryIsSpeedup, out.0, out.1)
  {
    hide RunsShort, TooShort, FirstUserOf;
    assert !MayCombine(inputs + [extra], primaryIsSpeedup);
    assert forall us :: EndsWith(s', cfg, b, q, inputs + [extra], primaryIsSpeedup, us) ==> us == inputs + [extra];
    assert EndsWith(s, cfg, b, q, inputs, primaryIsSpeedup, inputs + [extra]);
    assert Exhausted(s, inputs, primaryIsSpeedup, inputs + [extra]);
  }

  /** The whole builder. An RBF starts from the inherited inputs and may combine when the store knows the first one as a
      speedup's change; a CPFP starts from what `get_funding` hands out, and without funding the build ends at once. */
  lemma BuildOutcome(s: State, cfg: Config, b: Builder, q: BuildRequest, rbfInputs: Option<seq<Utxo>>)
    requires Inv(s) && 0 < cfg.dustLimit
    ensures var (s', r) := BuildSpeedup(s, cfg, b, q, rbfInputs);
            var (funded, chosen) := GetFunding(s);
            match rbfInputs
            case Some(inputs) => BuildDecided(s, cfg, b, q, inputs, inputs != [] && FromSpeedup(s, inputs[0].op), s', r)
            case None =>
              if chosen.None? then r.None? && FundingNotAvailable in s'.news
              else BuildDecided(funded, cfg, b, q, [chosen.value.0], chosen.value.1, s', r)
  {
    hide Inv, BuildDecided, GetFunding, BuildLoop;
    match rbfInputs
    case Some(inputs) =>
      LoopDecided(s, cfg, b, q, inputs, |inputs|, inputs != [] && IsSpeedupDerived(s, inputs[0].op), 0, 0);
    case None =>
      FundedKeepsInv(s);
      var (funded, chosen) := GetFunding(s);
      if chosen.Some? {
        LoopDecided(funded, cfg, b, q, [chosen.value.0], 0, chosen.value.1, 0, 0);
      }
  }

  /** The record of an outpoint says where it came from; without one, a stored speedup of that txid does. */
  predicate FromSpeedup(s: State, op: OutPoint) {
    if op in s.funding then s.funding[op].fromSpeedup
    else op.txid in s.txs && s.txs[op.txid].kind.Speedup?
  }

  lemma FundedKeepsInv(s: State)
    requires Inv(s)
    ensures Inv(GetFunding(s).0)
  {
    hide Inv, ChosenFunding, SetSpent;
    if ChosenFunding(s).Some? {
      SetSpentKeepsInv(s, ChosenFunding(s).value.0.op, true);
    }
  }

  /** A build that fails always says why: no funding, or amounts that fall short. */
  lemma FailedBuildSaysWhy(s: State, cfg: Config, b: Builder, q: BuildRequest, rbfInputs: Option<seq<Utxo>>)
    requires Inv(s) && 0 < cfg.dustLimit
    ensures var (s', r) := BuildSpeedup(s, cfg, b, q, rbfInputs);
            r.None? ==> FundingNotAvailable in s'.news || exists a, n :: a < n && InsufficientFunds(a, n) in s'.news
  {
    hide Inv, BuildSpeedup, GetFunding, FromSpeedup, EndsWith, Exhausted, RunsShort;
    BuildOutcome(s, cfg, b, q, rbfInputs);
  }
}

/** When step 6 builds and which pending parents its CPFP covers, exactly, read from the store alone
    (src/engines/speedup_engine.rs:394-504, src/core/dispatcher.rs:55-83, src/core/storage.rs:435-465). */
module CoverLaws {
  import opened Types
  import opened Oracles
  import opened States
  import opened Fees
  import opened Funding
  import opened Engines
  import opened FeeLaws
  import opened Invariants
  import opened Evolution
  import opened GrowthLaws
  import opened BuildLaws
  import opened ReviewLaws
  import opened DispatchLaws
  import opened CreationLaws
  import opened BatchLaws
  import opened Runs
  import opened SlotLaws
  import opened SlotBounds
  import opened BuildChoices
  import opened DueLaws

  /** The listed txids whose transaction the node has, in order. */
  function Ready(s: State, ids: seq<Txid>): seq<Txid> {
    if ids == [] then []
    else
      (if ids[0] in s.txs && (s.txs[ids[0]].state.InMempool? || s.txs[ids[0]].state.Confirmed? || s.txs[ids[0]].state.Finalized?)
       then [ids[0]] else []) + Ready(s, ids[1..])
  }

  /** The listed txids that stay pending: stored, not settled Failed, and not covered. */
  function Remaining(s: State, ids: seq<Txid>, covered: seq<Txid>): seq<Txid> {
    if ids == [] then []
    else
      (if ids[0] in s.txs && !s.txs[ids[0]].state.Failed? && ids[0] !in covered then [ids[0]] else [])
      + Remaining(s, ids[1..], covered)
  }

  function WeightOf(s: State, ids: seq<Txid>): nat {
    if ids == [] then 0
    else
      var last := ids[|ids| - 1];
      WeightOf(s, ids[..|ids| - 1]) + if last in s.txs then s.txs[last].tx.weight else 0
  }

  function VsizesOf(s: State, ids: seq<Txid>): seq<nat> {
    if ids == [] then [] else (if ids[0] in s.txs then [s.txs[ids[0]].tx.vsize] else []) + VsizesOf(s, ids[1..])
  }

  /** The first ready parents, as many as fit the weight limit and at least one. */
  predicate CoversFirst(s: State, cfg: Config, covered: seq<Txid>) {
    var ready := Ready(s, s.psp);
    && covered != []
    && covered <= ready
    && (WeightOf(s, covered) <= cfg.maxTxWeight || |covered| == 1)
    && (|covered| < |ready| ==> WeightOf(s, ready[..|covered| + 1]) > cfg.maxTxWeight)
  }

  /** A parent is ready, nothing waits and a slot is free. */
  ghost predicate CpfpDue(s: State, cfg: Config) {
    && Ready(s, s.psp) != []
    && NothingWaits(s)
    && |Occupied(s)| < cfg.maxUnconfirmedSpeedups
  }

  /** A CPFP is reported at the cap exactly when its fee is capped. */
  ghost predicate CapReported(s: State, s': State, r: CoordinatedTx, capped: bool) {
    var reached := MaxFeeRateReached(r.txid, r.feeInfo.packageFeeRate);
    reached in s'.news <==> reached in s.news || capped
  }

  /** One record is added: a CPFP of the first ready parents, with funding of its own. The pending list loses these and the
      entries that can never be covered; the rest keeps its order. */
  ghost predicate CpfpAdded(s: State, s': State, cfg: Config, estimate: Option<nat>, height: BlockHeight, n: Txid) {
    && n !in s.txs && s'.txs.Keys == s.txs.Keys + {n}
    && s'.txs[n].txid == n
    && NewlyBuilt(s'.txs[n], height)
    && var context := s'.txs[n].kind.speedup.context;
    && s'.txs[n].kind.speedup == CPFP(s'.txs[n].Parents(), context)
    && CoversFirst(s, cfg, s'.txs[n].Parents())
    && context.parentVsizes == VsizesOf(s, s'.txs[n].Parents())
    && context.bumpFeeUsed == cfg.baseFeeMultiplier
    && GetFunding(s).1.Some? && [GetFunding(s).1.value.0] <= context.fundingInputs
    && (exists capped: bool ::
          && PaysRate(s, cfg, NetworkRate(cfg, estimate), s'.txs[n], capped)
          && CapReported(s, s', s'.txs[n], capped))
    && s'.psp == Remaining(s, s.psp, s'.txs[n].Parents())
    && s'.speedups == s.speedups + [n] && s'.queue == s.queue
  }

  // ---------------------------------------------------------------- the engine's lists are these

  lemma {:induction false} ReadyIs(s: State, ids: seq<Txid>)
    requires KeysOk(s)
    ensures |PendingParents(s, ids)| == |Ready(s, ids)|
    ensures forall i :: 0 <= i < |Ready(s, ids)| ==>
              Ready(s, ids)[i] in ids && Ready(s, ids)[i] in s.txs && PendingParents(s, ids)[i] == s.txs[Ready(s, ids)[i]]
    ensures Txids(PendingParents(s, ids)) == Ready(s, ids)
  {
    hide Txids;
    if ids != [] {
      ReadyIs(s, ids[1..]);
    }
    assert forall i :: 0 <= i < |Ready(s, ids)| ==> Txids(PendingParents(s, ids))[i] == Ready(s, ids)[i];
  }

  lemma {:induction false} WeightIs(s: State, rs: seq<CoordinatedTx>, ids: seq<Txid>, n: nat)
    requires n <= |rs| == |ids| && forall i :: 0 <= i < n ==> ids[i] in s.txs && rs[i] == s.txs[ids[i]]
    ensures Weight(rs[..n]) == WeightOf(s, ids[..n])
    decreases n
  {
    if n > 0 {
      WeightIs(s, rs, ids, n - 1);
      assert rs[..n][..n - 1] == rs[..n - 1] && ids[..n][..n - 1] == ids[..n - 1];
    }
  }

  lemma {:induction false} VsizesAre(s: State, rs: seq<CoordinatedTx>, ids: seq<Txid>)
    requires |rs| == |ids| && forall i :: 0 <= i < |ids| ==> ids[i] in s.txs && rs[i] == s.txs[ids[i]] && rs[i].kind.NeedsSpeedup?
    ensures ParentVsizes(rs) == VsizesOf(s, ids)
    ensures ids != [] ==> ParentVsizes(rs) != []
  {
    if ids != [] {
      VsizesAre(s, rs[1..], ids[1..]);
    }
  }

  lemma {:induction false} ExcludingRemains(s: State, ids: seq<Txid>, covered: seq<Txid>, gone: set<Txid>)
    requires forall t :: t in ids ==> (t in gone <==> (t !in s.txs || s.txs[t].state.Failed?))
    ensures Excluding(Excluding(ids, gone), Elements(covered)) == Remaining(s, ids, covered)
  {
    if ids != [] {
      ExcludingRemains(s, ids[1..], covered, gone);
      var rest := Excluding(ids[1..], gone);
      assert ([ids[0]] + rest)[1..] == rest;
    }
  }

  lemma {:induction false} ExcludingNothing(s: State, ids: seq<Txid>, gone: set<Txid>)
    requires forall t :: t in ids ==> (t in gone <==> (t !in s.txs || s.txs[t].state.Failed?))
    ensures Excluding(ids, gone) == Remaining(s, ids, [])
  {
    if ids != [] {
      ExcludingNothing(s, ids[1..], gone);
    }
  }

  lemma PrunedIs(s: State)
    ensures PrunePending(s) == s.(psp := Remaining(s, s.psp, []))
  {
    hide Excluding, Remaining;
    ExcludingNothing(s, s.psp, set t | t in s.psp && Prunable(s, t));
  }

  lemma TakenIs(s: State, covered: seq<Txid>)
    ensures RemovePending(PrunePending(s), Elements(covered)) == s.(psp := Remaining(s, s.psp, covered))
  {
    hide Excluding, Remaining;
    ExcludingRemains(s, s.psp, covered, set t | t in s.psp && Prunable(s, t));
  }

  lemma BatchIs(s: State, cfg: Config)
    requires Inv(s) && Ready(s, s.psp) != []
    ensures var parents := PendingParents(s, s.psp);
            var batch := parents[..FirstBatch(cfg, parents, 0, 0)];
      && parents != []
      && CoversFirst(s, cfg, Txids(batch))
      && ParentVsizes(batch) == VsizesOf(s, Txids(batch)) && ParentVsizes(batch) != []
  {
    hide Inv, PendingParents, Ready, FirstBatch, Txids, KeysOk, ListOk, LineageOk, RbfOk, QueueOk, InputsOk, LifecycleOk, ReservedOk;
    hide ParentVsizes, VsizesOf, Weight, WeightOf;
    InvParts(s);
    ReadyIs(s, s.psp);
    var parents, ready := PendingParents(s, s.psp), Ready(s, s.psp);
    var n := FirstBatch(cfg, parents, 0, 0);
    assert parents[..0] == [] && Weight([]) == 0 by { NoWeight(); }
    FirstBatchIsGreedy(cfg, parents, 0);
    assert Txids(parents[..n]) == ready[..n] by { TxidsPrefix(parents, n); }
    WeightIs(s, parents, ready, n);
    if n < |parents| {
      WeightNext(parents, n);
      WeightIs(s, parents, ready, n + 1);
    }
    VsizesAre(s, parents[..n], ready[..n]);
  }

  lemma NoWeight()
    ensures Weight([]) == 0
  {}

  lemma TxidsPrefix(rs: seq<CoordinatedTx>, n: nat)
    requires n <= |rs|
    ensures Txids(rs[..n]) == Txids(rs)[..n]
  {
    hide Txids;
  }

  lemma DueIsFree(s: State, cfg: Config)
    requires Inv(s)
    ensures CpfpDue(s, cfg) <==> PendingParents(s, s.psp) != [] && SlotFree(cfg, SpeedupRecords(s))
  {
    hide Inv, PendingParents, Ready, SpeedupRecords, LiveInMempool, NothingWaits, AnyWaiting, Occupied, KeysOk, ListOk, LineageOk;
    hide RbfOk, QueueOk, InputsOk, LifecycleOk, ParentsOk, ReservedOk;
    InvParts(s);
    ReadyIs(s, s.psp);
    NothingWaitsIs(s);
    if NothingWaits(s) {
      SlotsCounted(s, cfg);
    }
  }

  // ---------------------------------------------------------------- what step 6 stores

  lemma CpfpRecordIs(s: State, cfg: Config, q: BuildRequest, covered: seq<Txid>, x: BuildResult, height: BlockHeight)
    requires q.bump == cfg.baseFeeMultiplier && q.parentVsizes == VsizesOf(s, covered) && CoversFirst(s, cfg, covered)
    requires GetFunding(s).1.Some? && [GetFunding(s).1.value.0] <= x.fundingInputs
    ensures var r := NewSpeedup(x, q.parentVsizes, CPFP(covered, MakeContext(x.fundingInputs, q.bump, q.parentVsizes)), height);
      && r.txid == x.txid && NewlyBuilt(r, height) && r.Parents() == covered
      && var context := r.kind.speedup.context;
      && r.kind.speedup == CPFP(covered, context)
      && context.parentVsizes == VsizesOf(s, covered)
      && context.bumpFeeUsed == cfg.baseFeeMultiplier
      && GetFunding(s).1.Some? && [GetFunding(s).1.value.0] <= context.fundingInputs
  {
    hide CoversFirst, GetFunding, VsizesOf, FeeInfoForPaidSpeedup, Sum;
  }

  lemma StoredCpfp(s: State, s': State, r: CoordinatedTx, gone: set<Txid>, capped: bool)
    requires r.kind.Speedup? && s'.txs.Keys == s.txs.Keys && r.txid !in s.txs && r.txid !in s'.speedups
    requires s'.speedups == s.speedups && s'.queue == s.queue && s'.news == s.news
    ensures var n := MaxFeeRateReached(r.txid, r.feeInfo.packageFeeRate);
            var taken := RemovePending(s', gone);
            var s2 := SaveSpeedup(if capped then AddNews(taken, n) else taken, r);
      && s2.txs.Keys == s.txs.Keys + {r.txid} && s2.txs[r.txid] == r
      && s2.speedups == s.speedups + [r.txid] && s2.queue == s.queue && s2.psp == RemovePending(s', gone).psp
      && CapReported(s, s2, r, capped)
  {
    hide Excluding;
  }

  /** What is needed of the pruned and noted store: it differs from `s` in the pending list and the news. */
  lemma PrunedNoted(s: State, noted: State)
    requires Inv(s) && noted == s.(psp := PrunePending(s).psp, news := noted.news)
    ensures Inv(noted) && SameCore(s, noted) && ChosenFunding(noted) == ChosenFunding(s)
    ensures SpeedupRecords(noted) == SpeedupRecords(s)
  {
    hide Inv, ChosenFunding;
    var gone := set t | t in s.psp && Prunable(s, t);
    RemovePendingKeepsInv(s, gone);
    NewsSetKeepsInv(PrunePending(s), noted.news);
    assert noted == PrunePending(s).(news := noted.news);
    ChoiceIgnoresNews(s, noted);
  }

  /** What a successful build leads to, from the facts about the build. */
  lemma BuiltCpfp(s: State, noted: State, cfg: Config, estimate: Option<nat>, q: BuildRequest, covered: seq<Txid>, s': State,
                  x: BuildResult, height: BlockHeight)
    requires Inv(s) && cfg.Valid() && Inv(noted)
    requires noted == s.(psp := PrunePending(s).psp, news := noted.news) && SameCapNews(s, noted)
    requires CoversFirst(s, cfg, covered)
    requires q == CpfpRequest(cfg, SpeedupRecords(s), VsizesOf(s, covered), NetworkFeeRate(cfg, estimate).0) && PaysForSize(cfg, q, x)
    requires ChosenFunding(s).Some? && [ChosenFunding(s).value.0] <= x.fundingInputs
    requires var r := NewSpeedup(x, q.parentVsizes, CPFP(covered, MakeContext(x.fundingInputs, q.bump, q.parentVsizes)), height);
             r.kind.Speedup? && NewRecord(noted, r) && s' == Claim(noted, r.Claimed())
    ensures var r := NewSpeedup(x, q.parentVsizes, CPFP(covered, MakeContext(x.fundingInputs, q.bump, q.parentVsizes)), height);
            var taken := RemovePending(s', Elements(covered));
            var reached := MaxFeeRateReached(r.txid, r.feeInfo.packageFeeRate);
            CpfpAdded(s, SaveSpeedup(if x.capped then AddNews(taken, reached) else taken, r), cfg, estimate, height, x.txid)
  {
    hide Inv, Claim, NewRecord, ChosenFunding, SaveSpeedup, NewSpeedup, PaysForSize, SpeedupRecords, CoversFirst, VsizesOf;
    hide NetworkFeeRate, NetworkRate, PaysRate, NewlyBuilt, LiveInMempool, ChainFeeDiff, Excluding, Remaining, PrunePending;
    hide RemovePending, MakeContext, CapReported, SameCapNews;
    var r := NewSpeedup(x, q.parentVsizes, CPFP(covered, MakeContext(x.fundingInputs, q.bump, q.parentVsizes)), height);
    var taken := RemovePending(s', Elements(covered));
    var reached := MaxFeeRateReached(r.txid, r.feeInfo.packageFeeRate);
    FreshIsUnlisted(noted, r);
    ClaimLists(noted, r.Claimed());
    CpfpRecordIs(s, cfg, q, covered, x, height);
    CpfpPays(s, cfg, estimate, covered, x, height);
    TakenIs(s, covered);
    TakingKeepsOrder(s, noted, s', covered);
    StoredCpfp(noted, s', r, Elements(covered), x.capped);
    CapReportedToo(s, noted, SaveSpeedup(if x.capped then AddNews(taken, reached) else taken, r), r, x.capped);
  }

  lemma CpfpBuilt(s: State, noted: State, cfg: Config, b: Builder, estimate: Option<nat>, covered: seq<Txid>, height: BlockHeight)
    requires Inv(s) && cfg.Valid() && FreshBuilder(s, b)
    requires noted == s.(psp := PrunePending(s).psp, news := noted.news) && SameCapNews(s, noted)
    requires CoversFirst(s, cfg, covered) && NoDup(covered)
    ensures var q := CpfpRequest(cfg, SpeedupRecords(s), VsizesOf(s, covered), NetworkFeeRate(cfg, estimate).0);
            var s' := BuildCpfp(noted, cfg, b, q, covered, height);
            Refused(noted, s') || exists n :: CpfpAdded(s, s', cfg, estimate, height, n)
  {
    hide Inv, KeysOk, ListOk, LineageOk, RbfOk, QueueOk, InputsOk, LifecycleOk, ParentsOk, ReservedOk, FreshBuilder, NoDup;
    hide BuildSpeedup, Claim, NewRecord, BuiltInputs, ChosenFunding, SaveSpeedup, NewSpeedup, PaysForSize, SpeedupRecords;
    hide CoversFirst, VsizesOf, NetworkFeeRate, SameCore, Claimable, BuiltBy, CpfpRequest, CpfpAdded, SameCapNews, MakeContext;
    hide PrunePending, RemovePending;
    var q := CpfpRequest(cfg, SpeedupRecords(s), VsizesOf(s, covered), NetworkFeeRate(cfg, estimate).0);
    PrunedNoted(s, noted);
    FreshBuilderNoted(s, b, noted);
    InvParts(noted);
    BuildSpeedupContract(noted, cfg, b, q, None);
    FailedBuild(noted, cfg, b, q, None);
    FailedBuildSaysWhy(noted, cfg, b, q, None);
    var (s', built) := BuildSpeedup(noted, cfg, b, q, None);
    if built.Some? {
      CpfpRecord(noted, cfg, b, q, covered, built.value, s', height);
      RecordIsSpeedup(noted, NewSpeedup(built.value, q.parentVsizes,
                                        CPFP(covered, MakeContext(built.value.fundingInputs, q.bump, q.parentVsizes)), height));
      BuiltCpfp(s, noted, cfg, estimate, q, covered, s', built.value, height);
    }
  }

  lemma CapReportedToo(s: State, noted: State, s': State, r: CoordinatedTx, capped: bool)
    requires SameCapNews(s, noted) && CapReported(noted, s', r, capped)
    ensures CapReported(s, s', r, capped)
  {}

  lemma TakingKeepsOrder(s: State, noted: State, s': State, covered: seq<Txid>)
    requires noted == s.(psp := PrunePending(s).psp, news := noted.news) && s'.psp == noted.psp
    ensures RemovePending(s', Elements(covered)).psp == RemovePending(PrunePending(s), Elements(covered)).psp
  {
    hide Excluding;
  }

  lemma CpfpPays(s: State, cfg: Config, estimate: Option<nat>, covered: seq<Txid>, x: BuildResult, height: BlockHeight)
    requires Inv(s) && cfg.Valid()
    requires PaysForSize(cfg, CpfpRequest(cfg, SpeedupRecords(s), VsizesOf(s, covered), NetworkFeeRate(cfg, estimate).0), x)
    ensures var q := CpfpRequest(cfg, SpeedupRecords(s), VsizesOf(s, covered), NetworkFeeRate(cfg, estimate).0);
            PaysRate(s, cfg, NetworkRate(cfg, estimate),
                     NewSpeedup(x, q.parentVsizes, CPFP(covered, MakeContext(x.fundingInputs, q.bump, q.parentVsizes)), height),
                     x.capped)
  {
    hide Inv, SpeedupRecords, LiveInMempool, PaysForSize, PaysRate, ChainFeeDiff, NewSpeedup;
    var q := CpfpRequest(cfg, SpeedupRecords(s), VsizesOf(s, covered), NetworkFeeRate(cfg, estimate).0);
    NetworkRateIs(cfg, estimate);
    RecordPays(s, cfg, q, x, CPFP(covered, MakeContext(x.fundingInputs, q.bump, q.parentVsizes)), height);
  }

  lemma CoveredDistinct(s: State, cfg: Config)
    requires Inv(s)
    ensures var parents := PendingParents(s, s.psp); NoDup(Txids(parents[..FirstBatch(cfg, parents, 0, 0)]))
  {
    hide Inv, PendingParents, FirstBatch, Txids, KeysOk, ListOk, LineageOk, RbfOk, QueueOk, InputsOk, LifecycleOk, ReservedOk, NoDup;
    InvParts(s);
    PendingParentsDistinct(s, s.psp);
    BatchTxidsDistinct(PendingParents(s, s.psp), FirstBatch(cfg, PendingParents(s, s.psp), 0, 0));
  }

  /** Nothing is stored but the reason; the pending list is only pruned. */
  ghost predicate CpfpRefused(s: State, s': State) {
    && s' == s.(psp := Remaining(s, s.psp, []), news := s'.news)
    && (FundingNotAvailable in s'.news || exists a, n :: a < n && InsufficientFunds(a, n) in s'.news)
  }

  lemma PrunedCapNews(s: State, cfg: Config, estimate: Option<nat>)
    ensures SameCapNews(s, NoteRate(PrunePending(s), NetworkFeeRate(cfg, estimate).1))
  {}

  lemma DueCpfp(s: State, cfg: Config, e: Event)
    requires Inv(s) && cfg.Valid() && Admissible(s, cfg, e) && e.CreateCpfpEvent? && CpfpDue(s, cfg)
    ensures var s' := Step(s, cfg, e); CpfpRefused(s, s') || exists n :: CpfpAdded(s, s', cfg, e.estimate, e.height, n)
  {
    hide Inv, SpeedupRecords, PendingParents, Ready, FirstBatch, Txids, ParentVsizes, BuildCpfp, NetworkFeeRate, SlotFree, Occupied;
    hide NothingWaits, CoversFirst, VsizesOf, PrunePending, Remaining, CpfpRequest, FreshBuilder, NoDup, CpfpAdded, SameCapNews;
    DueIsFree(s, cfg);
    BatchIs(s, cfg);
    CoveredDistinct(s, cfg);
    PrunedIs(s);
    var parents := PendingParents(s, s.psp);
    var batch := parents[..FirstBatch(cfg, parents, 0, 0)];
    var (rate, news) := NetworkFeeRate(cfg, e.estimate);
    var noted := NoteRate(PrunePending(s), news);
    PrunedCapNews(s, cfg, e.estimate);
    CpfpBuilt(s, noted, cfg, e.builder, e.estimate, Txids(batch), e.height);
  }

  /** Step 6, exactly: unless a parent is ready, nothing waits and a slot is free it only prunes the pending list; otherwise it
      adds a CPFP of the first ready parents or says why it cannot; and it adds nothing else. */
  lemma CpfpStep(s: State, cfg: Config, e: Event)
    requires Inv(s) && cfg.Valid() && Admissible(s, cfg, e) && e.CreateCpfpEvent?
    ensures var s' := Step(s, cfg, e);
      && (!CpfpDue(s, cfg) ==> s' == s.(psp := Remaining(s, s.psp, [])))
      && (CpfpDue(s, cfg) ==> CpfpRefused(s, s') || exists n :: CpfpAdded(s, s', cfg, e.estimate, e.height, n))
      && (forall n :: n in s'.txs && n !in s.txs ==> CpfpDue(s, cfg) && CpfpAdded(s, s', cfg, e.estimate, e.height, n))
  {
    hide Inv, SpeedupRecords, PendingParents, SlotFree, FreshBuilder, CpfpDue, CpfpAdded, CpfpRefused, BuildCpfp, PrunePending;
    if CpfpDue(s, cfg) {
      DueCpfp(s, cfg, e);
      forall n | n in Step(s, cfg, e).txs && n !in s.txs ensures CpfpAdded(s, Step(s, cfg, e), cfg, e.estimate, e.height, n) {
        CpfpAddedOnly(s, Step(s, cfg, e), cfg, e.estimate, e.height, n);
      }
    } else {
      DueIsFree(s, cfg);
      PrunedIs(s);
    }
  }

  lemma CpfpAddedOnly(s: State, s': State, cfg: Config, estimate: Option<nat>, height: BlockHeight, n: Txid)
    requires CpfpRefused(s, s') || exists m :: CpfpAdded(s, s', cfg, estimate, height, m)
    requires n in s'.txs && n !in s.txs
    ensures CpfpAdded(s, s', cfg, estimate, height, n)
  {
    hide NewlyBuilt, CoversFirst, PaysRate, Remaining, GetFunding, CapReported;
  }
}

/** Settling a failed dispatch keeps the invariant, and never frees funding somebody still relies on. */
module FailureLaws {
  import opened Types
  import opened States
  import opened Funding
  import opened Failures
  import opened Invariants
  import opened Evolution

  // ---------------------------------------------------------------- lists

  lemma {:induction false} ExcludingNoDup<T(!new)>(xs: seq<T>, gone: set<T>)
    requires NoDup(xs)
    ensures NoDup(Excluding(xs, gone))
  {
    if xs != [] {
      ExcludingNoDup(xs[1..], gone);
    }
  }

  lemma NoDupConcat<T>(a: seq<T>, b: seq<T>)
    requires NoDup(a) && NoDup(b)
    requires forall x :: x in a ==> x !in b
    ensures NoDup(a + b)
  {
    forall i, j | 0 <= i < j < |a + b| ensures (a + b)[i] != (a + b)[j] {
      if i < |a| <= j {
        assert a[i] in a && b[j - |a|] in b;
      }
    }
  }

  lemma {:induction false} StillNeedNoDup(s: State, ts: seq<Txid>)
    requires NoDup(ts)
    ensures NoDup(StillNeedSpeedup(s, ts))
  {
    if ts != [] {
      StillNeedNoDup(s, ts[1..]);
    }
  }

  lemma PrependKeepsInv(s: State, ts: seq<Txid>)
    requires Inv(s) && NoDup(ts)
    requires forall t :: t in ts ==> t in s.txs && s.txs[t].kind.NeedsSpeedup?
    ensures Inv(PrependPending(s, ts)) && Evolves(s, PrependPending(s, ts))
  {
    hide Structure, Reservations, LifecycleOk, OnePrebuilt, Evolves;
    var added := Excluding(ts, Elements(s.psp));
    ExcludingNoDup(ts, Elements(s.psp));
    NoDupConcat(added, s.psp);
    SameCoreKeepsInv(s, PrependPending(s, ts));
  }

  lemma RequeueKeepsInv(s: State, d: CoordinatedTx)
    requires Inv(s) && NoDup(d.Parents())
    ensures Inv(RequeueProtocolParents(s, d)) && Evolves(s, RequeueProtocolParents(s, d))
  {
    hide Inv, Evolves;
    StillNeedNoDup(s, d.Parents());
    PrependKeepsInv(s, StillNeedSpeedup(s, d.Parents()));
  }

  // ---------------------------------------------------------------- what may be released

  /** Nobody else relies on what `d` claimed, and its predecessor has no other live descendant. */
  ghost predicate SafeToRelease(s: State, d: CoordinatedTx) {
    && (forall y, op :: Live(s, y) && y != d.txid && op in Ops(d.Claimed()) ==> !Uses(s, y, op))
    && (d.IsRBF() && Live(s, d.kind.speedup.predecessor) ==>
          forall y :: Live(s, y) && y != d.txid ==> !Ancestor(s, d.kind.speedup.predecessor, y))
  }

  ghost predicate Matches(s: State, d: CoordinatedTx) {
    d.txid in s.txs && SameShape(s.txs[d.txid], d)
  }

  lemma ClaimsAreInputs(s: State, t: Txid, op: OutPoint)
    requires InputsOk(s) && IsSpeedup(s, t) && Claims(s, t, op)
    ensures Uses(s, t, op)
  {
    assert InputsOf(s, t);
    var r := s.txs[t];
    var i :| 0 <= i < |r.Claimed()| && r.Claimed()[i].op == op;
    if r.IsRBF() {
      var n := |r.FundingInputs()| - |r.Claimed()|;
      assert r.FundingInputs()[n..][i] == r.FundingInputs()[n + i];
    }
  }

  /** The heart of the reservation argument: a waiting speedup owns what it claimed. */
  lemma WaitingIsSafe(s: State, t: Txid)
    requires Inv(s) && Waiting(s, t)
    ensures SafeToRelease(s, s.txs[t])
  {
    hide ListOk, OrderOk, ChangeOk, QueueOk, LifecycleOk, ParentsOk, OnePrebuilt, ReservedOk;
    var d := s.txs[t];
    assert d.txid == t;
    forall y, op | Live(s, y) && y != t && op in Ops(d.Claimed()) ensures !Uses(s, y, op) {
      assert Claims(s, t, op);
      ClaimsAreInputs(s, t, op);
    }
    if d.IsRBF() && Live(s, d.kind.speedup.predecessor) {
      var p := d.kind.speedup.predecessor;
      forall y | Live(s, y) && y != t ensures !Ancestor(s, p, y) {
        if Ancestor(s, p, y) {
          UnmaskedIsNewest(s, t, p, y);
        }
      }
    }
  }

  /** Records keep their shape and speedups only leave the live set. */
  ghost predicate Declines(s: State, s': State) {
    && Evolves(s, s')
    && (forall x :: Live(s', x) ==> Live(s, x))
    && (forall x :: x in s.txs ==> s'.txs[x].state == s.txs[x].state || s'.txs[x].state.Failed?)
  }

  lemma DeclinesTransitive(a: State, b: State, c: State)
    requires Declines(a, b) && Declines(b, c)
    ensures Declines(a, c)
  {
    EvolvesTransitive(a, b, c);
    hide Evolves;
  }

  lemma DeclineKeepsSafe(s: State, s': State, d: CoordinatedTx)
    requires Declines(s, s') && SafeToRelease(s, d)
    ensures SafeToRelease(s', d)
  {
    EvolvesReadsSame(s, s');
    hide Evolves;
  }

  lemma DeclineKeepsMatches(s: State, s': State, d: CoordinatedTx)
    requires Declines(s, s') && Matches(s, d)
    ensures Matches(s', d)
  {
    assert SameShape(s.txs[d.txid], s'.txs[d.txid]);
  }

  // ---------------------------------------------------------------- settling one failure

  lemma SettleFailedKeepsInv(s: State, t: Txid, height: BlockHeight)
    requires Inv(s)
    ensures Inv(SettleTx(s, t, Failed, height))
    ensures Declines(s, SettleTx(s, t, Failed, height))
  {
    hide Structure, Reservations, ParentsOk, OnePrebuilt, Evolves;
    var rejection := RejectionNews(s, t, Failed);
    if rejection.Some? {
      NewsKeepsInv(s, rejection.value);
    } else {
      var r := s.txs[t].(state := Failed, settledBlockHeight := Some(height));
      SameShapeReflexive(s.txs[t]);
      assert LifeOf(s.txs[t]);
      WriteKeepsInv(s, t, r);
    }
  }

  lemma MarksDiffTransitive(a: State, b: State, c: State)
    requires OnlyMarksDiffer(a, b) && OnlyMarksDiffer(b, c)
    ensures OnlyMarksDiffer(a, c)
  {
    EvolvesTransitive(a, b, c);
    hide Evolves;
  }

  lemma MarksKeepReleasable(s: State, s': State, op: OutPoint)
    requires OnlyMarksDiffer(s, s') && Releasable(s, op)
    ensures Releasable(s', op)
  {
    EvolvesReadsSame(s, s');
    hide Evolves;
    assert forall t :: Live(s', t) == Live(s, t);
  }

  lemma {:induction false} ReleaseMarksKeepsInv(s: State, us: seq<Utxo>)
    requires Inv(s)
    requires forall i :: 0 <= i < |us| ==> Releasable(s, us[i].op)
    ensures Inv(ReleaseMarks(s, us)) && OnlyMarksDiffer(s, ReleaseMarks(s, us))
    decreases |us|
  {
    hide Inv, Evolves, Releasable, OnlyMarksDiffer;
    if us == [] {
      MarksDiffReflexive(s);
    } else {
      var next := SetSpent(s, us[0].op, false);
      SetSpentKeepsInv(s, us[0].op, false);
      forall i | 0 <= i < |us[1..]| ensures Releasable(next, us[1..][i].op) {
        MarksKeepReleasable(s, next, us[i + 1].op);
      }
      ReleaseMarksKeepsInv(next, us[1..]);
      MarksDiffTransitive(s, next, ReleaseMarks(next, us[1..]));
    }
  }

  lemma MarksDiffReflexive(s: State)
    ensures OnlyMarksDiffer(s, s)
  {
    EvolvesReflexive(s);
  }

  lemma MarksDecline(s: State, s': State)
    requires OnlyMarksDiffer(s, s')
    ensures Declines(s, s')
  {
    EvolvesReadsSame(s, s');
    hide Evolves;
  }

  /** Once `d` is no longer live, everything it claimed can be given back. */
  lemma ClaimsReleasable(s: State, d: CoordinatedTx, i: int)
    requires ChangeOk(s) && InputsOk(s) && ListOk(s) && Matches(s, d) && SafeToRelease(s, d) && !Live(s, d.txid)
    requires 0 <= i < |d.Claimed()|
    ensures Releasable(s, d.Claimed()[i].op)
  {
    hide Matches, SameShape;
    var op := d.Claimed()[i].op;
    assert Claims(s, d.txid, op) && IsSpeedup(s, d.txid) by {
      ClaimedMatches(s, d, i);
    }
    ClaimsAreInputs(s, d.txid, op);
    forall x, o | Live(s, x) && Uses(s, x, o) ensures o != op && !(o.txid == op.txid && op.txid in s.speedups) {
      assert !Uses(s, x, op);
    }
  }

  lemma ClaimedMatches(s: State, d: CoordinatedTx, i: int)
    requires Matches(s, d) && 0 <= i < |d.Claimed()|
    ensures Claims(s, d.txid, d.Claimed()[i].op) && IsSpeedup(s, d.txid)
  {}

  lemma ReleaseClaimsKeepsInv(s: State, d: CoordinatedTx)
    requires Inv(s) && Matches(s, d) && SafeToRelease(s, d) && !Live(s, d.txid)
    ensures Inv(ReleaseClaims(s, d)) && Declines(s, ReleaseClaims(s, d))
  {
    var marked := ReleaseMarks(s, d.Claimed());
    assert Inv(marked) && OnlyMarksDiffer(s, marked) by {
      hide Reservations, LifecycleOk, ParentsOk, OnePrebuilt, Matches, SafeToRelease, Evolves, OnlyMarksDiffer, Releasable;
      forall i | 0 <= i < |d.Claimed()| ensures Releasable(s, d.Claimed()[i].op) {
        ClaimsReleasable(s, d, i);
      }
      ReleaseMarksKeepsInv(s, d.Claimed());
    }
    hide Inv, OnlyMarksDiffer, Evolves;
    MarksDecline(s, marked);
    if d.IsRBF() {
      var p := d.kind.speedup.predecessor;
      DeclineKeepsSafe(s, marked, d);
      SetReplacedByKeepsInv(marked, p, None);
      MarksDecline(marked, SetReplacedBy(marked, p, None));
      DeclinesTransitive(s, marked, SetReplacedBy(marked, p, None));
    }
  }

  lemma SettleFailedDispatchKeepsInv(s: State, d: CoordinatedTx, height: BlockHeight, fundingMissing: bool)
    requires Inv(s) && Matches(s, d) && SafeToRelease(s, d)
    requires IsSpeedup(s, d.txid) ==> s.txs[d.txid].state.ToDispatch? || s.txs[d.txid].state.Failed?
    ensures Inv(SettleFailedDispatch(s, d, height, fundingMissing))
    ensures Declines(s, SettleFailedDispatch(s, d, height, fundingMissing))
  {
    var failed := SettleTx(s, d.txid, Failed, height);
    var settled := AddNews(failed, DispatchErrorNews(d));
    assert !Live(failed, d.txid);
    hide Inv, Evolves, SameShape;
    SettleFailedKeepsInv(s, d.txid, height);
    NewsKeepsInv(failed, DispatchErrorNews(d));
    NewsDeclines(failed, DispatchErrorNews(d));
    DeclinesTransitive(s, failed, settled);
    DeclineKeepsSafe(s, settled, d);
    DeclineKeepsMatches(s, settled, d);
    assert !Live(settled, d.txid);
    var released := ReleaseClaims(settled, d);
    ReleaseClaimsKeepsInv(settled, d);
    DeclinesTransitive(s, settled, released);
    if fundingMissing {
      MatchedParents(s, d);
      RequeueKeepsInv(released, d);
      RequeueDeclines(released, d);
      DeclinesTransitive(s, released, RequeueProtocolParents(released, d));
    }
  }

  lemma MatchedParents(s: State, d: CoordinatedTx)
    requires Inv(s) && Matches(s, d)
    ensures NoDup(d.Parents())
  {}

  lemma NewsDeclines(s: State, n: News)
    ensures Declines(s, AddNews(s, n))
  {
    SameCoreFrame(s, AddNews(s, n));
  }

  lemma RequeueDeclines(s: State, d: CoordinatedTx)
    ensures Declines(s, RequeueProtocolParents(s, d))
  {
    SameCoreFrame(s, RequeueProtocolParents(s, d));
  }
}

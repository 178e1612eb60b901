/** The coordinator's records and the pure predicates over them (src/types.rs, src/helper.rs).

    Scripts, keys, signatures and free-text contexts are not modelled: a transaction keeps its input
    outpoints, its output amounts, its vsize and its weight, and a txid is a number. */
module Types {

  datatype Option<+T> = None | Some(value: T)

  type Txid = nat
  type BlockHeight = nat

  datatype OutPoint = OutPoint(txid: Txid, vout: nat)

  datatype Utxo = Utxo(op: OutPoint, amount: nat)

  datatype Transaction = Transaction(inputs: seq<OutPoint>, outputs: seq<nat>, vsize: nat, weight: nat)

  datatype TransactionState = ToDispatch | InMempool | Confirmed | Finalized | Failed {

    predicate Terminal() {
      Finalized? || Failed?
    }

    /** Broadcast and not settled Failed: the states in which a speedup's change may fund another. */
    predicate OnNode() {
      InMempool? || Confirmed? || Finalized?
    }

    predicate CanTransitionTo(next: TransactionState) {
      match (this, next)
      case (ToDispatch, InMempool) => true
      case (InMempool, Confirmed) => true
      case (Confirmed, Finalized) => true
      case (ToDispatch, Confirmed) => true
      case (ToDispatch, Finalized) => true
      case (InMempool, Finalized) => true
      case (InMempool, ToDispatch) => true
      case (Confirmed, InMempool) => true
      case (Confirmed, ToDispatch) => true
      case (ToDispatch, Failed) => true
      case (InMempool, Failed) => true
      case (a, b) => a == b
    }
  }

  datatype FeeInfo = FeeInfo(fee: nat, feeRate: nat, packageFeeRate: nat, weight: nat)

  /** `parentVsizes` keeps the vsize column of the source's `parent_data`; it is empty for a boost CPFP. */
  datatype SpeedupContext = SpeedupContext(
    fundingInputs: seq<Utxo>,
    replacedBy: Option<Txid>,
    bumpFeeUsed: real,
    parentVsizes: seq<nat>,
    spent: bool)

  datatype SpeedupKind =
    | CPFP(parents: seq<Txid>, context: SpeedupContext)
    | RBF(predecessor: Txid, newFundingInputs: seq<Utxo>, context: SpeedupContext)
  {
    /** An RBF is always a boost; a CPFP is one when it carries no parent data. */
    predicate IsBoost() {
      RBF? || context.parentVsizes == []
    }

    function Parents(): seq<Txid> {
      if CPFP? then parents else []
    }

    /** The funding inputs this speedup reserved itself: an RBF inherits the rest from its predecessor. */
    function Claimed(): seq<Utxo> {
      if CPFP? then context.fundingInputs else newFundingInputs
    }
  }

  datatype TxKind = Normal | NeedsSpeedup | Speedup(speedup: SpeedupKind)

  datatype CoordinatedTx = CoordinatedTx(
    txid: Txid,
    tx: Transaction,
    kind: TxKind,
    state: TransactionState,
    targetBlockHeight: BlockHeight,
    stuckInMempoolBlocks: Option<nat>,
    settledBlockHeight: Option<BlockHeight>,
    broadcastBlockHeight: Option<BlockHeight>,
    failGuardUntil: Option<BlockHeight>,
    retryCount: nat,
    feeInfo: FeeInfo)
  {
    function WithContext(c: SpeedupContext): CoordinatedTx
      requires kind.Speedup?
    {
      this.(kind := Speedup(kind.speedup.(context := c)))
    }

    function FundingInputs(): seq<Utxo> {
      if kind.Speedup? then kind.speedup.context.fundingInputs else []
    }

    function Claimed(): seq<Utxo> {
      if kind.Speedup? then kind.speedup.Claimed() else []
    }

    function Parents(): seq<Txid> {
      if kind.Speedup? then kind.speedup.Parents() else []
    }

    predicate IsRBF() {
      kind.Speedup? && kind.speedup.RBF?
    }

    predicate Supersedes(t: Txid) {
      IsRBF() && kind.speedup.predecessor == t
    }

    predicate IsSpent() {
      kind.Speedup? && kind.speedup.context.spent
    }

    predicate IsBeingReplaced() {
      kind.Speedup? && kind.speedup.context.replacedBy.Some?
    }

    /** A first CPFP: the only speedup that spends protocol-parent outputs directly. */
    predicate IsFirstCpfp() {
      kind.Speedup? && !kind.speedup.IsBoost()
    }

    /** Outpoint of the change output, the last output of a speedup. */
    function ChangeOp(): OutPoint {
      OutPoint(txid, if |tx.outputs| == 0 then 0 else |tx.outputs| - 1)
    }

    function ChangeUtxo(): Utxo
      requires |tx.outputs| > 0
    {
      Utxo(ChangeOp(), tx.outputs[|tx.outputs| - 1])
    }

    function NonFundingInputs(): seq<OutPoint> {
      Excluding(tx.inputs, Ops(FundingInputs()))
    }

    predicate IsReadyToDispatch(height: BlockHeight) {
      height >= targetBlockHeight
    }

    predicate IsStuckInMempool(height: BlockHeight) {
      && stuckInMempoolBlocks.Some?
      && broadcastBlockHeight.Some?
      && SaturatingSub(height, broadcastBlockHeight.value) >= stuckInMempoolBlocks.value
    }

    /** Two signals: the `replacedBy` mark, and a non-Failed RBF record naming this txid. */
    predicate HasLiveReplacement(all: seq<CoordinatedTx>) {
      IsBeingReplaced() || exists i :: 0 <= i < |all| && !all[i].state.Failed? && all[i].Supersedes(txid)
    }

    predicate IsLiveInMempool(all: seq<CoordinatedTx>) {
      state.InMempool? && !HasLiveReplacement(all)
    }

    /** The cascade edge: primary funding produced by `t`, or `t` among the covered parents. */
    predicate DependsOn(t: Txid) {
      (|FundingInputs()| > 0 && FundingInputs()[0].op.txid == t) || t in Parents()
    }
  }

  datatype FundingData = FundingData(utxo: Utxo, spent: bool, fromSpeedup: bool)

  datatype News =
    | TxNotFound(txid: Txid)
    | InvalidStateTransition(txid: Txid, from: TransactionState, to: TransactionState)
    | EstimateFeerateTooHigh(estimated: nat, max: nat)
    | InvalidFundingUtxo(amount: nat, minRequired: nat)
    | FundingNotAvailable
    | TransactionStuckInMempool(txid: Txid)
    | DispatchError(txid: Txid)
    | SpeedupDispatchError(txid: Txid)
    | TransactionEvicted(txid: Txid)
    | InsufficientFunds(available: nat, required: nat)
    | MaxFeeRateReached(txid: Txid, effectiveFeeRate: nat)
    | InvalidCancel(txid: Txid)

  function SaturatingSub(a: nat, b: nat): nat {
    if a >= b then a - b else 0
  }

  function Ops(us: seq<Utxo>): set<OutPoint> {
    set i | 0 <= i < |us| :: us[i].op
  }

  /** `xs` without the elements of `gone`, in order (the source's `retain` and `filter`). */
  function Excluding<T(==, !new)>(xs: seq<T>, gone: set<T>): (r: seq<T>)
    ensures forall x :: x in r <==> x in xs && x !in gone
    ensures |r| <= |xs|
  {
    if xs == [] then []
    else if xs[0] in gone then Excluding(xs[1..], gone)
    else [xs[0]] + Excluding(xs[1..], gone)
  }

  function Elements<T(==, !new)>(xs: seq<T>): (r: set<T>)
    ensures forall x :: x in r <==> x in xs
  {
    set x | x in xs
  }

  ghost predicate NoDup<T>(xs: seq<T>) {
    forall i, j :: 0 <= i < j < |xs| ==> xs[i] != xs[j]
  }
}

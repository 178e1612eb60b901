/** The settings and everything the coordinator asks of code outside this repository: the monitor, the
    node and the transaction builder. Answers are arbitrary; a step receives its own set of answers. */
module Oracles {
  import opened Types

  /** The settings used by the modelled code (src/config/configs.rs). Multipliers are exact numbers. */
  datatype Config = Config(
    maxUnconfirmedSpeedups: nat,
    minBlocksBeforeResend: nat,
    bumpFeePercentage: real,
    maxFeerate: nat,
    baseFeeMultiplier: real,
    minSafeFeeRate: nat,
    minFundingAmount: nat,
    maxTrackingConfirmations: nat,
    maxTxWeight: nat,
    retryAttempts: nat,
    maxMonitoringConfirmations: nat,
    dustLimit: nat)
  {
    /** The bounds `BitcoinSettings::validate` enforces, as far as the model uses them. */
    predicate Valid() {
      && 0 < maxUnconfirmedSpeedups
      && 1.0 <= bumpFeePercentage
      && 0.0 < baseFeeMultiplier
      && 1 <= minSafeFeeRate <= maxFeerate
      && 0 < dustLimit
    }
  }

  /** The monitor's verdict on one transaction, in the order the source tests it. */
  datatype ChainStatus = SeenInMempool | NotFound | Settled | Mined | Orphaned | Unclear

  /** Largest vsize a built speedup may have: a block holds 4,000,000 weight units. */
  const MAX_SPEEDUP_VSIZE: nat := 1_000_000

  type VSize = v: nat | 0 < v <= MAX_SPEEDUP_VSIZE witness 1

  type SpeedupTx = t: Transaction | 0 < t.vsize <= MAX_SPEEDUP_VSIZE && |t.outputs| > 0
    witness Transaction([], [0], 1, 4)

  datatype Built = Built(txid: Txid, tx: SpeedupTx)

  /** The transaction builder. The first argument numbers the call, so two calls may differ. */
  datatype Builder = Builder(
    dummy: (nat, seq<Utxo>) -> VSize,
    build: (nat, seq<Utxo>, nat) -> Built)

  /** The node as a dispatch step sees it. */
  datatype Node = Node(
    parentReady: (Txid, Txid) -> bool,
    accepts: Txid -> bool,
    confirmations: Txid -> Option<nat>,
    unspent: OutPoint -> bool)
}

/** The fee and confirmation-delay strategy bound to Ethereum transactions. */
module EthereumFeeStrategy {
  import opened Enums

  const AVERAGE_BLOCK_TIME_SEC: int := 13
  const DEFAULT_GAS_LIMIT: int := 21000
  const DEFAULT_GAS_PRICE_GWEI: real := 50.0
  /** The factor 1e-9 that turns gwei into ether. */
  const GWEI: real := 0.000000001

  /** Gas limit times gas price: 21000 * 50 * 1e-9 = 0.00105 ether, computed exactly. */
  const BASE_FEE: real := DEFAULT_GAS_LIMIT as real * (DEFAULT_GAS_PRICE_GWEI * GWEI)

  /**
   * calculateFees: 0.8, 1.0 and 1.2 times the base fee for ECONOMIQUE,
   * STANDARD and RAPIDE. The result depends on the tier alone.
   */
  function CalculateFees(p: FeePriority): (fee: real)
    ensures 0.0 < fee
    ensures fee < BASE_FEE <==> p == Economique
    ensures fee > BASE_FEE <==> p == Rapide
  {
    match p
    case Economique => BASE_FEE * 0.8
    case Standard => BASE_FEE
    case Rapide => BASE_FEE * 1.2
  }

  /**
   * estimateConfirmationTime: 240, 120 and 30 for ECONOMIQUE, STANDARD and
   * RAPIDE; the block time of 13 seconds only enters the default arm, which a
   * three-valued tier never reaches.
   */
  function EstimateConfirmationTime(p: FeePriority): (delay: int)
    ensures 30 <= delay <= 240
    ensures delay == 240 <==> p == Economique
    ensures delay == 30 <==> p == Rapide
  {
    match p
    case Economique => 240
    case Standard => 120
    case Rapide => 30
  }

  lemma FeeValues()
    ensures BASE_FEE == 0.00105
    ensures CalculateFees(Economique) == 0.00084
    ensures CalculateFees(Standard) == 0.00105
    ensures CalculateFees(Rapide) == 0.00126
  {
  }

  lemma ConfirmationTimeValues()
    ensures EstimateConfirmationTime(Economique) == 240
    ensures EstimateConfirmationTime(Standard) == 120
    ensures EstimateConfirmationTime(Rapide) == 30
  {
  }

  /** Fees strictly increase with the tier. */
  lemma FeesStrictlyIncreasing(p: FeePriority, q: FeePriority)
    requires Ordinal(p) < Ordinal(q)
    ensures CalculateFees(p) < CalculateFees(q)
  {
  }

  /** A strictly higher tier is confirmed strictly sooner. */
  lemma ConfirmationTimeStrictlyDecreasing(p: FeePriority, q: FeePriority)
    requires Ordinal(p) < Ordinal(q)
    ensures EstimateConfirmationTime(q) < EstimateConfirmationTime(p)
  {
  }
}

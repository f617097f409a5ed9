/** The fee and confirmation-delay strategy bound to Bitcoin transactions. */
module BitcoinFeeStrategy {
  import opened Enums

  const AVERAGE_BLOCK_TIME_SEC: int := 10 * 60
  const ESTIMATED_TX_SIZE_BYTES: int := 250
  const SATOSHI_PER_BYTE: real := 50.0
  /** The factor 1e-8 that turns satoshi into bitcoin. */
  const SATOSHI: real := 0.00000001

  /** Size times rate: 250 * 50 * 1e-8 = 0.000125 bitcoin, computed exactly. */
  const BASE_FEE: real := ESTIMATED_TX_SIZE_BYTES as real * SATOSHI_PER_BYTE * SATOSHI

  /**
   * calculateFees: 0.8 of the base fee for ECONOMIQUE, the base fee for
   * STANDARD and for RAPIDE (a multiplier of 1, so no premium).
   * The result depends on the tier alone.
   */
  function CalculateFees(p: FeePriority): (fee: real)
    ensures 0.0 < fee <= BASE_FEE
    ensures fee == BASE_FEE <==> p != Economique
  {
    match p
    case Economique => BASE_FEE * 0.8
    case Standard => BASE_FEE
    case Rapide => BASE_FEE * 1.0
  }

  /** estimateConfirmationTime: 240, 120 and 30 for ECONOMIQUE, STANDARD and RAPIDE. */
  function EstimateConfirmationTime(p: FeePriority): (delay: int)
    ensures 30 <= delay <= 240
    ensures delay == 240 <==> p == Economique
    ensures delay == 30 <==> p == Rapide
  {
    match p
    case Economique => 240
    case Standard => 120
    case Rapide => 30
  }

  lemma FeeValues()
    ensures BASE_FEE == 0.000125
    ensures CalculateFees(Economique) == 0.0001
    ensures CalculateFees(Standard) == 0.000125
    ensures CalculateFees(Rapide) == CalculateFees(Standard)
  {
  }

  lemma ConfirmationTimeValues()
    ensures EstimateConfirmationTime(Economique) == 240
    ensures EstimateConfirmationTime(Standard) == 120
    ensures EstimateConfirmationTime(Rapide) == 30
  {
  }

  /** A higher tier never costs less. */
  lemma FeesMonotone(p: FeePriority, q: FeePriority)
    requires Ordinal(p) <= Ordinal(q)
    ensures CalculateFees(p) <= CalculateFees(q)
  {
  }

  /** A strictly higher tier is confirmed strictly sooner. */
  lemma ConfirmationTimeStrictlyDecreasing(p: FeePriority, q: FeePriority)
    requires Ordinal(p) < Ordinal(q)
    ensures EstimateConfirmationTime(q) < EstimateConfirmationTime(p)
  {
  }
}

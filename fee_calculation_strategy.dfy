/**
 * The strategy a transaction is bound to, as a closed variant over the two
 * implementations, and the dispatch to them.
 */
module FeeCalculationStrategy {
  import opened Enums
  import Btc = BitcoinFeeStrategy
  import Eth = EthereumFeeStrategy

  datatype FeeStrategy = BitcoinStrategy | EthereumStrategy

  /** calculateFees through the bound strategy: a positive fee fixed by strategy and tier. */
  function CalculateFees(s: FeeStrategy, p: FeePriority): (fee: real)
    ensures 0.0 < fee
    ensures s.BitcoinStrategy? ==> fee <= Btc.BASE_FEE
    ensures s.EthereumStrategy? ==> fee >= 0.8 * Eth.BASE_FEE
  {
    match s
    case BitcoinStrategy => Btc.CalculateFees(p)
    case EthereumStrategy => Eth.CalculateFees(p)
  }

  /** estimateConfirmationTime through the bound strategy. */
  function EstimateConfirmationTime(s: FeeStrategy, p: FeePriority): (delay: int)
    ensures 30 <= delay <= 240
  {
    match s
    case BitcoinStrategy => Btc.EstimateConfirmationTime(p)
    case EthereumStrategy => Eth.EstimateConfirmationTime(p)
  }

  /** At every tier both strategies report the same delay: Ethereum is not made faster. */
  lemma SameDelayForBothAssets(p: FeePriority)
    ensures EstimateConfirmationTime(EthereumStrategy, p) == EstimateConfirmationTime(BitcoinStrategy, p)
  {
  }

  /** At every tier the two strategies quote different fees. */
  lemma FeesDifferAcrossAssets(p: FeePriority)
    ensures CalculateFees(BitcoinStrategy, p) != CalculateFees(EthereumStrategy, p)
  {
  }
}

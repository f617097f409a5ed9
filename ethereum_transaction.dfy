/** The Ethereum subclass of Transaction: its constructor. */
module EthereumTransaction {
  import opened Common
  import opened Enums
  import opened FeeCalculationStrategy
  import Eth = EthereumFeeStrategy
  import opened Model

  /** The base constructor with the Ethereum strategy, then setCryptoType(ETHEREUM). */
  method New(from: Address, to: Address, amount: real, feePriority: FeePriority) returns (t: Transaction)
    ensures fresh(t)
    ensures t.fromAddress == from && t.toAddress == to && t.amount == amount && t.feePriority == feePriority
    ensures t.feeStrategy == EthereumStrategy && t.cryptoType == Some(Ethereum)
    ensures t.fees == Eth.CalculateFees(feePriority)
    ensures t.fees == match feePriority
                      case Economique => 0.00084
                      case Standard => 0.00105
                      case Rapide => 0.00126
    ensures t.status == Pending && t.id == None
  {
    t := new Transaction(from, to, amount, feePriority, EthereumStrategy);
    t.SetCryptoType(Ethereum);
  }
}

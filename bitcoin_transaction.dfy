/** The Bitcoin subclass of Transaction: its constructor. */
module BitcoinTransaction {
  import opened Common
  import opened Enums
  import opened FeeCalculationStrategy
  import Btc = BitcoinFeeStrategy
  import opened Model

  /** The base constructor with the Bitcoin strategy, then setCryptoType(BITCOIN). */
  method New(from: Address, to: Address, amount: real, feePriority: FeePriority) returns (t: Transaction)
    ensures fresh(t)
    ensures t.fromAddress == from && t.toAddress == to && t.amount == amount && t.feePriority == feePriority
    ensures t.feeStrategy == BitcoinStrategy && t.cryptoType == Some(Bitcoin)
    ensures t.fees == Btc.CalculateFees(feePriority)
    ensures feePriority == Economique ==> t.fees == 0.0001
    ensures feePriority != Economique ==> t.fees == 0.000125
    ensures t.status == Pending && t.id == None
  {
    t := new Transaction(from, to, amount, feePriority, BitcoinStrategy);
    t.SetCryptoType(Bitcoin);
  }
}

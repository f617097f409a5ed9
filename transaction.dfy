/** The transaction entity of package `model`. */
module Model {
  import opened Common
  import opened Enums
  import opened FeeCalculationStrategy

  /**
   * A transfer of `amount` from one wallet address to another. The addresses,
   * amount, tier, strategy and fee never change after construction, so they are
   * constants; the status, the crypto type set by the subclass constructors and
   * the identity assigned by the store are fields that later code writes.
   */
  class Transaction {
    const fromAddress: Address
    const toAddress: Address
    const amount: real
    const feePriority: FeePriority
    const feeStrategy: FeeStrategy
    /** Computed once, by the bound strategy, for this transaction's own tier. */
    const fees: real
    var status: TransactionStatus
    /** Null until a subclass constructor calls setCryptoType. */
    var cryptoType: Option<CryptoType>
    /** The key the transaction store assigns on a successful insert. */
    var id: Option<nat>

    constructor (from: Address, to: Address, amount: real, feePriority: FeePriority, strategy: FeeStrategy)
      ensures fromAddress == from && toAddress == to && this.amount == amount
      ensures this.feePriority == feePriority && feeStrategy == strategy
      ensures status == Pending
      ensures fees == CalculateFees(strategy, feePriority)
      ensures cryptoType == None && id == None
    {
      fromAddress := from;
      toAddress := to;
      this.amount := amount;
      this.feePriority := feePriority;
      feeStrategy := strategy;
      status := Pending;
      fees := CalculateFees(strategy, feePriority);
      cryptoType := None;
      id := None;
    }

    method SetStatus(s: TransactionStatus)
      modifies this`status
      ensures status == s
    {
      status := s;
    }

    method SetCryptoType(c: CryptoType)
      modifies this`cryptoType
      ensures cryptoType == Some(c)
    {
      cryptoType := Some(c);
    }

    method SetId(n: nat)
      modifies this`id
      ensures id == Some(n)
    {
      id := Some(n);
    }
  }
}

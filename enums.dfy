/** The closed enumerations of package `enums`. */
module Enums {

  /**
   * The fee priority tier. The enum's source is not part of this model; its
   * declaration order is taken to be the order of the strategies' switch arms:
   * ECONOMIQUE, STANDARD, RAPIDE.
   */
  datatype FeePriority = Economique | Standard | Rapide

  datatype CryptoType = Bitcoin | Ethereum

  datatype TransactionStatus = Pending | Confirmed

  /** Enum.ordinal() under the declaration order assumed above. */
  function Ordinal(p: FeePriority): (n: nat)
    ensures n < 3
    ensures p == Economique <==> n == 0
    ensures p == Rapide <==> n == 2
  {
    match p
    case Economique => 0
    case Standard => 1
    case Rapide => 2
  }

  /** Distinct tiers have distinct ordinals, so comparing ordinals is a total order on tiers. */
  lemma OrdinalInjective(p: FeePriority, q: FeePriority)
    ensures Ordinal(p) == Ordinal(q) <==> p == q
  {
  }
}

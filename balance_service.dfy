/** The balance ledger: debit the source, credit the destination. */
module BalanceService {
  import opened Common
  import opened Stores

  /**
   * Where a call into the wallet store throws. A lookup that throws and a first
   * write that throws have the same effect: nothing is written.
   */
  datatype LedgerFault = NoFault | FirstWriteThrows | SecondWriteThrows

  datatype LedgerOutcome = LedgerOutcome(ok: bool, balances: map<Address, real>)

  /**
   * The effect of updateBalances on the balance map: both balances are read
   * first, then the source is written with the debit of amount and fees, then
   * the destination with the credit of amount. Nothing is rolled back.
   */
  function Settle(balances: map<Address, real>, source: Address, destination: Address,
                  amount: real, fees: real, fault: LedgerFault): (r: LedgerOutcome)
    ensures r.ok <==> source in balances && destination in balances && fault == NoFault
    ensures r.balances.Keys == balances.Keys
    ensures forall a :: a in balances && a != source && a != destination ==> r.balances[a] == balances[a]
    ensures !r.ok && fault != SecondWriteThrows ==> r.balances == balances
    ensures source !in balances || destination !in balances ==> r.balances == balances
  {
    if source !in balances || destination !in balances then LedgerOutcome(false, balances)
    else
      var sourceBalance, destBalance := balances[source], balances[destination];
      match fault
      case FirstWriteThrows => LedgerOutcome(false, balances)
      case SecondWriteThrows => LedgerOutcome(false, balances[source := sourceBalance - amount - fees])
      case NoFault =>
        var afterDebit := balances[source := sourceBalance - amount - fees];
        LedgerOutcome(true, afterDebit[destination := destBalance + amount])
  }

  /** updateBalances against the wallet store; its reads and writes in the source's order. */
  method UpdateBalances(wallets: WalletStore, source: Address, destination: Address,
                        amount: real, fees: real, fault: LedgerFault) returns (ok: bool)
    modifies wallets`balances
    ensures LedgerOutcome(ok, wallets.balances)
            == Settle(old(wallets.balances), source, destination, amount, fees, fault)
  {
    var sourceBalance := if source in wallets.balances then Some(wallets.balances[source]) else None;
    var destBalance := if destination in wallets.balances then Some(wallets.balances[destination]) else None;
    if sourceBalance.None? || destBalance.None? {
      return false;
    }
    if fault == FirstWriteThrows {
      return false;
    }
    wallets.UpdateBalance(source, sourceBalance.value - amount - fees);
    if fault == SecondWriteThrows {
      return false;
    }
    wallets.UpdateBalance(destination, destBalance.value + amount);
    ok := true;
  }

  /** getBalanceInfo: the balance behind a fixed prefix, or a fixed notice when it cannot be read. */
  function GetBalanceInfo(balances: map<Address, real>, address: Address): (m: Message)
    ensures address in balances ==> m == WithBalance("Balance: ", balances[address])
    ensures address !in balances ==> m == Plain("Could not retrieve balance")
  {
    if address in balances then WithBalance("Balance: ", balances[address])
    else Plain("Could not retrieve balance")
  }

  /** A transfer between two distinct wallets debits amount plus fees and credits amount. */
  lemma SettleDistinct(balances: map<Address, real>, source: Address, destination: Address,
                       amount: real, fees: real)
    requires source in balances && destination in balances && source != destination
    ensures var r := Settle(balances, source, destination, amount, fees, NoFault);
            && r.ok
            && r.balances[source] == balances[source] - amount - fees
            && r.balances[destination] == balances[destination] + amount
            && r.balances[source] + r.balances[destination] == balances[source] + balances[destination] - fees
  {
  }

  /**
   * Because both reads come before both writes, a transfer to oneself ends with
   * the credit alone: the debit written first is overwritten.
   */
  lemma SettleSelfTransferLosesDebit(balances: map<Address, real>, address: Address, amount: real, fees: real)
    requires address in balances
    ensures var r := Settle(balances, address, address, amount, fees, NoFault);
            r.ok && r.balances == balances[address := balances[address] + amount]
  {
  }

  /** A throw after the first write reports failure and leaves the debit in place. */
  lemma SettleKeepsPartialWrite(balances: map<Address, real>, source: Address, destination: Address,
                                amount: real, fees: real)
    requires source in balances && destination in balances && source != destination
    ensures var r := Settle(balances, source, destination, amount, fees, SecondWriteThrows);
            && !r.ok
            && r.balances[source] == balances[source] - amount - fees
            && r.balances[destination] == balances[destination]
  {
  }

  /** Nothing stops the debit from overdrawing the source. */
  lemma SettleMayOverdraw(balances: map<Address, real>, source: Address, destination: Address,
                          amount: real, fees: real)
    requires source in balances && destination in balances && source != destination
    requires balances[source] < amount + fees
    ensures var r := Settle(balances, source, destination, amount, fees, NoFault);
            r.ok && r.balances[source] < 0.0
  {
  }

  /**
   * After a settled transfer between two distinct wallets, the balance report
   * of either side shows its new balance, and the report of any other address
   * is what it was before.
   */
  lemma BalanceInfoAfterSettle(balances: map<Address, real>, source: Address, destination: Address,
                               amount: real, fees: real, other: Address)
    requires source in balances && destination in balances && source != destination
    requires other != source && other != destination
    ensures var after := Settle(balances, source, destination, amount, fees, NoFault).balances;
            && GetBalanceInfo(after, source) == WithBalance("Balance: ", balances[source] - amount - fees)
            && GetBalanceInfo(after, destination) == WithBalance("Balance: ", balances[destination] + amount)
            && GetBalanceInfo(after, other) == GetBalanceInfo(balances, other)
  {
  }
}

/**
 * The processing pipeline: validate, then save, then settle balances, stopping
 * at the first step that fails.
 */
module TransactionProcessingService {
  import opened Common
  import opened Model
  import opened Stores
  import opened TransactionValidationService
  import opened BalanceService

  const SAVE_FAILED: string := "Failed to create transaction in database"
  const BALANCE_UPDATE_FAILED: string := "Failed to update wallet balances"

  datatype TransactionResult = TransactionResult(isSuccess: bool, errorMessage: Option<Message>,
                                                 transaction: Option<Transaction>)

  /** A success carries a transaction and no message; a failure a message and no transaction. */
  predicate WellFormedResult(r: TransactionResult)
  {
    && (r.isSuccess <==> r.errorMessage.None?)
    && (r.isSuccess <==> r.transaction.Some?)
  }

  function ProcessSuccess(t: Transaction): (r: TransactionResult)
    ensures r.isSuccess && r.errorMessage == None && r.transaction == Some(t) && WellFormedResult(r)
  {
    TransactionResult(true, None, Some(t))
  }

  function ProcessError(m: Message): (r: TransactionResult)
    ensures !r.isSuccess && r.errorMessage == Some(m) && r.transaction == None && WellFormedResult(r)
  {
    TransactionResult(false, Some(m), None)
  }

  /**
   * processTransaction. The ledger is called with the transaction's own fee as
   * its fourth argument. `saveFault` and `ledgerFault` say where the stores throw.
   */
  method ProcessTransaction(wallets: WalletStore, store: TransactionStore, t: Transaction,
                            saveFault: SaveFault, ledgerFault: LedgerFault) returns (r: TransactionResult)
    requires store.Valid()
    modifies wallets`balances, store, t`id
    ensures store.Valid() && WellFormedResult(r)
    ensures var v := ValidateTransaction(old(wallets.addresses), old(wallets.balances),
                                         t.fromAddress, t.toAddress, t.amount);
            !v.isValid ==>
              && r == ProcessError(v.errorMessage.value)
              && wallets.balances == old(wallets.balances)
              && store.rows == old(store.rows) && t.id == old(t.id)
    ensures var v := ValidateTransaction(old(wallets.addresses), old(wallets.balances),
                                         t.fromAddress, t.toAddress, t.amount);
            v.isValid && SaveThrows(t.cryptoType, saveFault) ==>
              && r == ProcessError(Plain(SAVE_FAILED))
              && wallets.balances == old(wallets.balances)
              && store.rows == old(store.rows) && t.id == old(t.id)
    ensures var v := ValidateTransaction(old(wallets.addresses), old(wallets.balances),
                                         t.fromAddress, t.toAddress, t.amount);
            v.isValid && !SaveThrows(t.cryptoType, saveFault) ==>
              && store.rows == (if InsertsRow(t.cryptoType, saveFault) then old(store.rows) + [RowOf(t, |old(store.rows)| + 1)]
                                else old(store.rows))
              && t.id == (if saveFault == NoSaveFault then Some(|old(store.rows)| + 1) else old(t.id))
              && var s := Settle(old(wallets.balances), t.fromAddress, t.toAddress, t.amount, t.fees, ledgerFault);
                 && wallets.balances == s.balances
                 && r == if s.ok then ProcessSuccess(t) else ProcessError(Plain(BALANCE_UPDATE_FAILED))
  {
    var validation := ValidateTransaction(wallets.addresses, wallets.balances, t.fromAddress, t.toAddress, t.amount);
    if !validation.isValid {
      return ProcessError(validation.errorMessage.value);
    }
    var threw := store.Save(t, saveFault);
    if threw {
      return ProcessError(Plain(SAVE_FAILED));
    }
    var settled := UpdateBalances(wallets, t.fromAddress, t.toAddress, t.amount, t.fees, ledgerFault);
    if !settled {
      return ProcessError(Plain(BALANCE_UPDATE_FAILED));
    }
    r := ProcessSuccess(t);
  }

  /**
   * A transfer the validator admits, with a readable destination balance and no
   * store fault, moves the amount and charges the fee to the source.
   */
  lemma AdmittedTransferSettles(addresses: set<Address>, balances: map<Address, real>,
                                source: Address, destination: Address, amount: real, fees: real)
    requires ValidateTransaction(addresses, balances, source, destination, amount).isValid
    requires destination in balances
    ensures var s := Settle(balances, source, destination, amount, fees, NoFault);
            && s.ok
            && s.balances == balances[source := balances[source] - amount - fees]
                                     [destination := balances[destination] + amount]
  {
  }

  /** The ledger is never reached for a transfer to oneself. */
  lemma SelfTransferNeverSettled(addresses: set<Address>, balances: map<Address, real>,
                                 address: Address, amount: real)
    ensures !ValidateTransaction(addresses, balances, address, address, amount).isValid
  {
  }

  /**
   * The validator ignores the fee, so an admitted transfer of the whole balance
   * with a positive fee drives the source below zero.
   */
  lemma ValidatedTransferMayOverdraw(addresses: set<Address>, balances: map<Address, real>,
                                     source: Address, destination: Address, amount: real, fees: real)
    requires ValidateTransaction(addresses, balances, source, destination, amount).isValid
    requires destination in balances && balances[source] == amount && fees > 0.0
    ensures Settle(balances, source, destination, amount, fees, NoFault).balances[source] < 0.0
  {
  }
}

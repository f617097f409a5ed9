/**
 * The validator: a fixed sequence of checks over read-only wallet lookups that
 * stops at the first failure.
 */
module TransactionValidationService {
  import opened Common

  const SOURCE_NOT_FOUND: string := "Source wallet address not found in database."
  const DESTINATION_NOT_FOUND: string := "Destination wallet address not found in database."
  const SELF_TRANSFER: string := "You can't send to yourself"
  const NON_POSITIVE_AMOUNT: string := "Amount must be greater than 0"
  const BALANCE_UNAVAILABLE: string := "Could not retrieve balance for source wallet."
  /** Followed, in the source, by the balance rendered as text. */
  const INSUFFICIENT_BALANCE: string := "You don't have enough balance to send this amount. Your balance: "

  datatype ValidationResult = ValidationResult(isValid: bool, errorMessage: Option<Message>)

  /** What every result the factories build satisfies: valid exactly when it has no message. */
  predicate WellFormed(r: ValidationResult)
  {
    r.isValid <==> r.errorMessage.None?
  }

  function Success(): (r: ValidationResult)
    ensures r.isValid && WellFormed(r)
  {
    ValidationResult(true, None)
  }

  function Error(m: Message): (r: ValidationResult)
    ensures !r.isValid && r.errorMessage == Some(m) && WellFormed(r)
  {
    ValidationResult(false, Some(m))
  }

  /** All the conditions the validator demands of a transfer; the fee is not among them. */
  predicate Admissible(addresses: set<Address>, balances: map<Address, real>,
                       source: Address, destination: Address, amount: real)
  {
    && source in addresses
    && destination in addresses
    && source != destination
    && amount > 0.0
    && source in balances
    && balances[source] >= amount
  }

  /**
   * validateTransaction, over the wallet store's known addresses and
   * retrievable balances; it reads them and writes nothing.
   */
  function ValidateTransaction(addresses: set<Address>, balances: map<Address, real>,
                               source: Address, destination: Address, amount: real): (r: ValidationResult)
    ensures WellFormed(r)
    ensures r.isValid <==> Admissible(addresses, balances, source, destination, amount)
  {
    if source !in addresses then Error(Plain(SOURCE_NOT_FOUND))
    else if destination !in addresses then Error(Plain(DESTINATION_NOT_FOUND))
    else if source == destination then Error(Plain(SELF_TRANSFER))
    else if amount <= 0.0 then Error(Plain(NON_POSITIVE_AMOUNT))
    else if source !in balances then Error(Plain(BALANCE_UNAVAILABLE))
    else if balances[source] < amount then Error(WithBalance(INSUFFICIENT_BALANCE, balances[source]))
    else Success()
  }

  /** A missing source wallet is reported whatever else is wrong. */
  lemma MissingSourceReportedFirst(addresses: set<Address>, balances: map<Address, real>,
                                   source: Address, destination: Address, amount: real)
    requires source !in addresses
    ensures ValidateTransaction(addresses, balances, source, destination, amount) == Error(Plain(SOURCE_NOT_FOUND))
  {
  }

  lemma MissingDestinationReportedSecond(addresses: set<Address>, balances: map<Address, real>,
                                         source: Address, destination: Address, amount: real)
    requires source in addresses && destination !in addresses
    ensures ValidateTransaction(addresses, balances, source, destination, amount) == Error(Plain(DESTINATION_NOT_FOUND))
  {
  }

  /** Sending to oneself from an existing wallet is refused, however large the balance. */
  lemma SelfTransferRefused(addresses: set<Address>, balances: map<Address, real>, source: Address, amount: real)
    requires source in addresses
    ensures ValidateTransaction(addresses, balances, source, source, amount) == Error(Plain(SELF_TRANSFER))
  {
  }

  lemma NonPositiveAmountRefused(addresses: set<Address>, balances: map<Address, real>,
                                 source: Address, destination: Address, amount: real)
    requires source in addresses && destination in addresses && source != destination
    requires amount <= 0.0
    ensures ValidateTransaction(addresses, balances, source, destination, amount) == Error(Plain(NON_POSITIVE_AMOUNT))
  {
  }

  lemma UnavailableBalanceRefused(addresses: set<Address>, balances: map<Address, real>,
                                  source: Address, destination: Address, amount: real)
    requires source in addresses && destination in addresses && source != destination && amount > 0.0
    requires source !in balances
    ensures ValidateTransaction(addresses, balances, source, destination, amount) == Error(Plain(BALANCE_UNAVAILABLE))
  {
  }

  /** A balance below the amount is refused with a message carrying that balance. */
  lemma InsufficientBalanceRefused(addresses: set<Address>, balances: map<Address, real>,
                                   source: Address, destination: Address, amount: real)
    requires source in addresses && destination in addresses && source != destination && amount > 0.0
    requires source in balances && balances[source] < amount
    ensures ValidateTransaction(addresses, balances, source, destination, amount)
            == Error(WithBalance(INSUFFICIENT_BALANCE, balances[source]))
  {
  }

  /** The balance boundary is inclusive: a balance equal to the amount validates. */
  lemma ExactBalanceValidates(addresses: set<Address>, balances: map<Address, real>,
                              source: Address, destination: Address, amount: real)
    requires source in addresses && destination in addresses && source != destination && amount > 0.0
    requires source in balances && balances[source] == amount
    ensures ValidateTransaction(addresses, balances, source, destination, amount) == Success()
  {
  }
}

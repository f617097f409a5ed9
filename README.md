# Transfer admission and confirmation core of a crypto-wallet simulator

This project models, in Dafny, the part of the wallet simulator that admits a value transfer and later confirms it:

- the per-asset fee and confirmation-delay strategies (Bitcoin and Ethereum);
- the transaction entity and its two asset-specific constructors;
- the validator, a fixed chain of checks that stops at the first failure;
- the balance ledger, which reads two balances and then writes two;
- the processing pipeline: validate, then save, then settle balances;
- the mempool, a priority queue of pending transactions whose confirmation is scheduled after a delay.

Amounts, balances and fees are exact `real`s, not doubles.

The relational stores become two small classes (`Stores`):

- `WalletStore` holds the set of addresses that `findByAddress` finds and the map of balances that `getBalance` returns. `updateBalance` is a map update.
- `TransactionStore` is a table of rows. `Save` appends a row and, when the key can be read back, gives the transaction the generated key. `Update` marks the row with the transaction's key CONFIRMED, which is all the source's update query does.

Exceptions thrown by store calls become explicit parameters: `SaveFault`, `LedgerFault`, and the `updateFault` flag of `ConfirmTransaction`.

The scheduler is replaced by a log. `AddTransaction` appends a `Task(transaction, delay)` to the `scheduled` log, and confirmation is the explicit method `ConfirmTransaction`. Confirmation does not consume tasks from the log.

In the model, a transaction's identity is its object reference.

The queue's comparators are functions of a transaction's `SortKey`, the tier and fee that the comparator chain reads through its key extractors. Both are fixed at construction.

## Where the model follows the code rather than its tests

- **Bitcoin fee.** The Bitcoin base fee is 250 × 50 × 10⁻⁸ = 0.000125 BTC, so ECONOMIQUE pays 0.0001. The comments in src/test/FeeStrategyTest.java say 0.00125 and 0.001. The model uses the code's values.
- **Ethereum fees and delays.** Ethereum fees vary by tier: 0.8, 1.0 and 1.2 times 0.00105, i.e. 0.00084 / 0.00105 / 0.00126. Its delays are 240/120/30, the same as Bitcoin's. src/test/FeeStrategyTest.java:121-171 expects equal fees and delays of 65, 26 and 13.
- **Fee ignored by the validator.** The validator compares the balance with the amount only. The fee is not checked, although src/test/TransactionValidationServiceTest.java:184-223 expects it to count. `ValidatedTransferMayOverdraw` shows the consequence: a validated transfer can overdraw the source.
- **Ledger arity.** `processTransaction` calls the ledger with three arguments, but the ledger takes four (amount and fee). The model passes the transaction's own fee as the fourth argument, which is what src/test/TransactionProcessingServiceTest.java:227 expects of the balances.
- **Mempool order.** The comparator's trailing `reversed()` reverses the whole chain. The queue therefore serves the lowest tier ordinal first, and within a tier the highest fee first. The declaration order of `FeePriority` is not part of this model; it is assumed to be ECONOMIQUE, STANDARD, RAPIDE (`Enums.Ordinal`). Under that order, economy transactions are served before fast ones (`EconomiqueServedBeforeRapide`), the reverse of what a fee-priority pool is for.
- **Snapshot order.** `getMempool` copies the queue in iterator order, which is heap order, not sorted order. The model promises only the same elements.
- **Store failure during confirmation.** A failing store update during confirmation is swallowed, and `confirmTransaction` still reports success.
- **Duplicate admission.** Nothing stops the same transaction from being queued twice. Confirming it once then leaves a CONFIRMED transaction in the queue (`DuplicateAdmissionLeavesConfirmedInQueue`). So every queued transaction is PENDING only as long as none is queued twice. The converse does not hold either: a transaction taken out by `pollNext` stays PENDING outside the queue.
- **Save that throws or half-succeeds.** Binding the insert parameters dereferences the crypto type, so with the crypto type unset an insert throws before writing anything. It does not throw when opening the connection or preparing the statement already failed: that SQL error is raised first and swallowed (`ConnectionFails`). An SQL error from the insert itself, or from opening the connection, is swallowed with no row written (`InsertFails`, `ConnectionFails`). Processing then goes on to the ledger all the same: the balances are settled and, if the ledger succeeds, success is reported although nothing was saved. An SQL error while reading the generated key comes after the row is written: the row stays, the transaction gets no key, and processing goes on to the ledger (`KeyRetrievalFails`).

## Model

| member | source | states |
|---|---|---|
| `Enums.Ordinal` | src/service/MempoolService.java:26 | the tier's ordinal is below 3, 0 exactly for ECONOMIQUE and 2 exactly for RAPIDE (assumed declaration order) |
| `Enums.OrdinalInjective` | src/service/MempoolService.java:26 | distinct tiers have distinct ordinals, so comparing tiers by ordinal is a total order |
| `BitcoinFeeStrategy.CalculateFees` | src/strategy/BitcoinFeeStrategy.java:10-18 | every fee is positive and at most the base fee, and equals the base fee exactly for STANDARD and RAPIDE |
| `BitcoinFeeStrategy.EstimateConfirmationTime` | src/strategy/BitcoinFeeStrategy.java:21-28 | every delay lies between 30 and 240; it is 240 exactly for ECONOMIQUE and 30 exactly for RAPIDE |
| `BitcoinFeeStrategy.FeeValues` | src/strategy/BitcoinFeeStrategy.java:6-15 | base fee 0.000125; ECONOMIQUE 0.0001; STANDARD 0.000125; RAPIDE equal to STANDARD (no premium) |
| `BitcoinFeeStrategy.ConfirmationTimeValues` | src/strategy/BitcoinFeeStrategy.java:22-25 | delays are 240, 120 and 30 for ECONOMIQUE, STANDARD and RAPIDE |
| `BitcoinFeeStrategy.FeesMonotone` | src/strategy/BitcoinFeeStrategy.java:11-16 | a tier of higher or equal ordinal never has a lower fee |
| `BitcoinFeeStrategy.ConfirmationTimeStrictlyDecreasing` | src/strategy/BitcoinFeeStrategy.java:23-25 | a strictly higher tier has a strictly shorter delay |
| `EthereumFeeStrategy.CalculateFees` | src/strategy/EthereumFeeStrategy.java:12-20 | every fee is positive; below the base fee exactly for ECONOMIQUE and above it exactly for RAPIDE |
| `EthereumFeeStrategy.EstimateConfirmationTime` | src/strategy/EthereumFeeStrategy.java:23-30 | every delay lies between 30 and 240; it is 240 exactly for ECONOMIQUE and 30 exactly for RAPIDE |
| `EthereumFeeStrategy.FeeValues` | src/strategy/EthereumFeeStrategy.java:8-17 | base fee 0.00105; fees 0.00084, 0.00105 and 0.00126 for the three tiers |
| `EthereumFeeStrategy.ConfirmationTimeValues` | src/strategy/EthereumFeeStrategy.java:25-27 | delays are 240, 120 and 30 for ECONOMIQUE, STANDARD and RAPIDE |
| `EthereumFeeStrategy.FeesStrictlyIncreasing` | src/strategy/EthereumFeeStrategy.java:15-17 | a strictly higher tier has a strictly higher fee |
| `EthereumFeeStrategy.ConfirmationTimeStrictlyDecreasing` | src/strategy/EthereumFeeStrategy.java:25-27 | a strictly higher tier has a strictly shorter delay |
| `FeeCalculationStrategy.CalculateFees` | src/model/Transaction.java:28 | the fee of the bound strategy is positive, capped by the Bitcoin base fee for Bitcoin and at least 0.8 of the Ethereum base fee for Ethereum |
| `FeeCalculationStrategy.EstimateConfirmationTime` | src/service/MempoolService.java:39 | the delay from the bound strategy lies between 30 and 240 |
| `FeeCalculationStrategy.SameDelayForBothAssets` | src/strategy/EthereumFeeStrategy.java:25-27 | at every tier the Ethereum delay equals the Bitcoin delay |
| `FeeCalculationStrategy.FeesDifferAcrossAssets` | src/test/FeeStrategyTest.java:186 | at every tier the Bitcoin and the Ethereum strategies quote different fees |
| `Model.Transaction.SetStatus` | src/service/MempoolService.java:35 | the status becomes the given one and nothing else of the transaction changes (also used for CONFIRMED at line 51) |
| `Model.Transaction.SetCryptoType` | src/model/BitcoinTransaction.java:11 | the crypto type becomes the given one (EthereumTransaction.java:11 sets ETHEREUM the same way) |
| `Model.Transaction.SetId` | src/repository/JdbcRepository.java:39 | the key becomes the given one |
| `Model.Transaction.constructor` | src/model/Transaction.java:20-30 | addresses, amount, tier and strategy are stored as passed; status starts PENDING; the fee is the bound strategy's fee for the transaction's own tier, independent of amount and addresses; no crypto type or key yet |
| `BitcoinTransaction.New` | src/model/BitcoinTransaction.java:9-12 | a fresh PENDING transaction bound to the Bitcoin strategy, crypto type BITCOIN, fee 0.0001 for ECONOMIQUE and 0.000125 otherwise |
| `EthereumTransaction.New` | src/model/EthereumTransaction.java:9-12 | a fresh PENDING transaction bound to the Ethereum strategy, crypto type ETHEREUM, fee 0.00084 / 0.00105 / 0.00126 by tier |
| `Stores.WalletStore.UpdateBalance` | src/service/BalanceService.java:21-22 | overwrites one address's balance and nothing else |
| `Stores.RowOf` | src/repository/TransactionRepository.java:58-66 | the inserted row carries the transaction's addresses, amount, fee, tier, status and crypto type with the generated key |
| `Stores.ConfirmById` | src/repository/TransactionRepository.java:69-77 | the rows with the given key become CONFIRMED; every other row is unchanged; the table keeps its length |
| `Stores.ConfirmByIdTouchesOneRow` | src/repository/TransactionRepository.java:70-76 | in a table keyed 1, 2, … an update by key alters exactly the row with that key, and only if it was not already CONFIRMED |
| `Stores.TransactionStore.Save` | src/repository/JdbcRepository.java:27-48 | throws exactly on an unchecked error, or on an unset crypto type unless the connection failed first; appends the transaction's row under the next key exactly when the crypto type is set and the insert goes through; sets the transaction's key exactly when, in addition, the key is read back; under the gap-free key assumption listed below, keys stay sequential |
| `Stores.TransactionStore.Update` | src/repository/JdbcRepository.java:82-93 | confirms the row keyed by the transaction's key, whatever its status; a swallowed SQL error or a missing key writes nothing |
| `TransactionValidationService.Success` | src/service/TransactionValidationService.java:55-57 | a valid result with no message |
| `TransactionValidationService.Error` | src/service/TransactionValidationService.java:59-61 | an invalid result carrying exactly the given message |
| `TransactionValidationService.ValidateTransaction` | src/service/TransactionValidationService.java:12-44 | the result is valid exactly when source and destination are known, distinct, the amount is positive and the source balance is readable and at least the amount (the fee is not checked); valid iff no message |
| `TransactionValidationService.MissingSourceReportedFirst` | src/service/TransactionValidationService.java:14-16 | an unknown source yields the source-not-found message whatever the other inputs |
| `TransactionValidationService.MissingDestinationReportedSecond` | src/service/TransactionValidationService.java:19-21 | known source, unknown destination yields the destination-not-found message |
| `TransactionValidationService.SelfTransferRefused` | src/service/TransactionValidationService.java:24-26 | a transfer from a known wallet to itself yields the self-transfer message, whatever the balance |
| `TransactionValidationService.NonPositiveAmountRefused` | src/service/TransactionValidationService.java:29-31 | once the address checks pass, an amount at or below zero yields the amount message |
| `TransactionValidationService.UnavailableBalanceRefused` | src/service/TransactionValidationService.java:34-37 | an unreadable source balance yields the could-not-retrieve message |
| `TransactionValidationService.InsufficientBalanceRefused` | src/service/TransactionValidationService.java:39-41 | a balance below the amount yields the insufficient-balance message carrying that balance |
| `TransactionValidationService.ExactBalanceValidates` | src/service/TransactionValidationService.java:39-43 | a balance equal to the amount validates: the boundary is inclusive |
| `BalanceService.Settle` | src/service/BalanceService.java:12-28 | succeeds exactly when both balances are readable and no store call throws; only source and destination can change; an unreadable balance writes nothing whatever the fault, and so does a throw on the first write |
| `BalanceService.UpdateBalances` | src/service/BalanceService.java:12-28 | the method's result and the wallet store's new balances are exactly the ledger outcome of the old balances |
| `BalanceService.GetBalanceInfo` | src/service/BalanceService.java:30-36 | the readable balance behind the "Balance: " prefix, or the could-not-retrieve notice |
| `BalanceService.BalanceInfoAfterSettle` | src/service/BalanceService.java:30-36 | after a settled transfer between distinct wallets the balance report shows the source's debited and the destination's credited balance, and any other address's report is unchanged |
| `BalanceService.SettleDistinct` | src/service/BalanceService.java:21-22 | between distinct wallets the source loses amount plus fee and the destination gains the amount, so their sum drops by exactly the fee |
| `BalanceService.SettleSelfTransferLosesDebit` | src/service/BalanceService.java:14-22 | with source equal to destination the final balance is the old balance plus the amount: the debit is lost |
| `BalanceService.SettleKeepsPartialWrite` | src/service/BalanceService.java:21-27 | a throw after the first write reports failure and leaves the debit in place with the destination unchanged |
| `BalanceService.SettleMayOverdraw` | src/service/BalanceService.java:21 | a balance below amount plus fee is still debited and becomes negative |
| `TransactionProcessingService.ProcessSuccess` | src/service/TransactionProcessingService.java:61-63 | success, no message, the given transaction |
| `TransactionProcessingService.ProcessError` | src/service/TransactionProcessingService.java:65-67 | failure, the given message, no transaction |
| `TransactionProcessingService.ProcessTransaction` | src/service/TransactionProcessingService.java:19-48 | a validation failure returns the validator's message and writes nothing; a save that throws returns the save message and writes no balance; otherwise the row is saved exactly when the insert went through and the transaction gets the key exactly when it was also read back, the balances are the ledger outcome with the transaction's fee, and the result is success with the same transaction only if the ledger succeeded, else the balance message with no rollback |
| `TransactionProcessingService.AdmittedTransferSettles` | src/service/TransactionProcessingService.java:39-43 | a validated transfer with a readable destination balance leaves the source at balance − amount − fee and the destination at balance + amount |
| `TransactionProcessingService.SelfTransferNeverSettled` | src/service/TransactionProcessingService.java:21-29 | a transfer to oneself never passes validation, so it never reaches the ledger |
| `TransactionProcessingService.ValidatedTransferMayOverdraw` | src/service/TransactionValidationService.java:39 | since the fee is not checked, a validated transfer of the whole balance with a positive fee leaves the source negative |
| `MempoolService.KeyOf` | src/service/MempoolService.java:26-28 | the comparator sees a transaction's tier and fee and nothing else |
| `MempoolService.EnumCompare` | src/service/MempoolService.java:26 | comparing tiers is negative, zero or positive exactly as the first tier's ordinal is below, equal to or above the second's; zero exactly for the same tier |
| `MempoolService.DoubleCompare` | src/service/MempoolService.java:28 | comparing fees yields −1, 0 or 1 exactly as the first fee is below, equal to or above the second |
| `MempoolService.ByFeePriority` | src/service/MempoolService.java:26 | the key comparator on the tier: negative exactly for a lower ordinal, zero exactly for the same tier |
| `MempoolService.ByFees` | src/service/MempoolService.java:28 | the key comparator on the fee: negative exactly for a lower fee, zero exactly for the same fee |
| `MempoolService.Reversed` | src/service/MempoolService.java:27-28 | the reversed comparator compares the arguments swapped |
| `MempoolService.ThenComparing` | src/service/MempoolService.java:28 | the chained comparator agrees with the first wherever the first is non-zero and with the second on its ties |
| `MempoolService.MempoolOrder` | src/service/MempoolService.java:24-29 | the queue's comparator chain is negative exactly when the first has the lower tier ordinal or the same tier and a higher fee, zero exactly for equal tier and fee, positive exactly in the opposite case |
| `MempoolService.MempoolOrderIsAntisymmetric` | src/service/MempoolService.java:26-28 | the comparator keeps Comparator's sign contract: swapping the arguments flips the sign, and a tie is symmetric |
| `MempoolService.MempoolOrderIsTransitive` | src/service/MempoolService.java:26-28 | the comparator keeps Comparator's transitivity contract |
| `MempoolService.SignMeansServedNoLater` | src/service/MempoolService.java:26-28 | a non-positive comparison means the second transaction is not served before the first |
| `MempoolService.NotPrecededIsTransitive` | src/service/MempoolService.java:26-28 | "not served before" is transitive, so the queue's order is a total preorder |
| `MempoolService.EconomiqueServedBeforeRapide` | src/service/MempoolService.java:26-28 | an ECONOMIQUE transaction compares before a RAPIDE one whatever the fees |
| `MempoolService.HigherFeeServedFirstWithinTier` | src/service/MempoolService.java:28 | within one tier the higher fee compares first |
| `MempoolService.IndexOfMin` | src/service/MempoolService.java:62-64 | picks a position in the queue that no queued transaction precedes |
| `MempoolService.RemoveAt` | src/service/MempoolService.java:50 | removing one position takes exactly one occurrence of its element out of the queue's multiset |
| `MempoolService.IndexOf` | src/service/MempoolService.java:50 | the first position holding the given transaction, as remove takes it |
| `MempoolService.MempoolService.constructor` | src/service/MempoolService.java:22-30 | an empty queue, nothing scheduled, the given store |
| `MempoolService.MempoolService.GetMempool` | src/service/MempoolService.java:17-19 | a copy with the same multiset of elements as the queue; no order is promised |
| `MempoolService.MempoolService.AddTransaction` | src/service/MempoolService.java:32-46 | null is refused with nothing changed; otherwise status becomes PENDING, exactly one occurrence is added, a confirmation is scheduled with the strategy's delay for the tier, and true is returned; all-queued-are-PENDING is preserved |
| `MempoolService.MempoolService.ConfirmTransaction` | src/service/MempoolService.java:48-60 | returns true exactly when the transaction is queued; then one occurrence is removed, its status becomes CONFIRMED and one store update is issued; otherwise nothing changes |
| `MempoolService.MempoolService.PollNext` | src/service/MempoolService.java:62-64 | null exactly on an empty queue; otherwise removes one occurrence of a queued transaction that no queued transaction precedes, leaving its status as it was |
| `MempoolService.ConfirmTwice` | src/service/MempoolService.java:48-60 | a transaction admitted once and confirmed twice makes one transition to CONFIRMED and one store update; the second confirmation reports false |
| `MempoolService.DuplicateAdmissionLeavesConfirmedInQueue` | src/service/MempoolService.java:32-60 | admitting a transaction twice and confirming it once leaves it queued with status CONFIRMED |

## Left out

- The console menu and the application entry point: interactive input and printing.
- The database connection and the JDBC repositories. They are replaced by `Stores`; key lookup, `findAll` and `getLastInsertedId` are not modelled.
- The pass-through services wrapping the repositories, `TransactionService` and `WalletService`. Their store calls are made directly.
- Wallet entities and address generation. Generation relies on a secure random source; wallets appear only as addresses and balances.
- Input parsing of amounts (`Double.parseDouble`).
- IEEE double rounding. Fees and balances are exact reals.
- Non-finite doubles. Reals have no NaN or infinity. The source's validator admits a NaN amount, which the menu's input check lets through: both `amount <= 0` and `balance < amount` are false for NaN. The ledger then writes NaN into both balances and processing reports success. `ValidateTransaction` cannot express this case.
- Key generation by the database. The store is assumed to hand out gap-free keys 1, 2, … in insertion order (`TransactionStore.Valid`, and the key `|rows| + 1` in `Save`). A database sequence does not roll back, so an insert that fails on the server (`InsertFails`) can burn a key, after which the next key is not `|rows| + 1`.
- How a double is rendered as text. Messages that end with a balance keep the balance as a number (`Message.WithBalance`).
- The transaction's creation timestamp (a clock) and its generated string identifier (an abstract method with no implementation). The model uses object identity plus the store key.
- The repository's `setFees` and status overwrite when it rebuilds a transaction from a row. Reading rows back is not modelled, so the fee stays a constant.
- The getters and setters of the transaction entity, which are not in its source file. The model gives it `SetStatus`, `SetCryptoType` and an integer `SetId`, which is what the repository's reflective call and src/repository/TransactionRepository.java:49 rely on.
- The strategies' default switch arms. The tier is a closed three-valued datatype, so those arms have no counterpart.
- The no-argument `calculateFees()` of the strategy interface. It matches neither implementation; a strategy is modelled as a function of the tier.
- Concurrency. The thread-safety of the blocking priority queue and the timing of the scheduler are left out. Confirmation is an explicit call, and the delay appears as the scheduled task's value.
- The branch of `confirmTransaction` that re-adds the transaction when removing it or setting its status throws. Neither call can throw in this model, so the branch is unreachable.
- `MempoolService.MempoolService.PollNext`: does not say which of several tied minimal transactions is returned, because the heap's internal order is not modelled.
- `MempoolService.MempoolService.GetMempool`: states contents only, not order, because the queue's backing order is not modelled.
- `BalanceService.SettleDistinct`: states the conservation for the two wallets touched. Together with the frame in `Settle`, this covers the total over all wallets, which is not summed explicitly.

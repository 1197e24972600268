# stte transaction engine, in Dafny

A model of the transaction engine of `stte`, a toy payments engine. The engine
reads a log of records (deposit, withdrawal, dispute, resolve, chargeback), each
addressed to a client, and keeps one asset account per client: `available` and
`held` funds, a `locked` flag, and the deposits and withdrawals seen so far with
their dispute state. The model covers the whole per-record state machine of
`Engine::process_transaction`, the engine's construction, and the data model it
uses (`Transaction::get_amount`, `StoredTransaction::new`, `DisputeState`, the
default `Client`, the amount errors).

Files:

- `types.dfy` (module `Types`): ids, amounts, records, the amount check, the
  dispute states and their transitions, recorded transactions, accounts, errors.
- `engine.dfy` (module `Engine`): the state machine as pure functions (`Step` on
  one account, `Process` on the engine's map of accounts, `ProcessAll` on a log),
  and the class `Engine` whose methods change its `clients` map in place and are
  proved equal to those functions. The per-kind dispatch on a borrowed account is
  the method `ApplyToClient`, written statement by statement like the source.
- `properties.dfy` (module `EngineProperties`): what each kind of record does,
  locking, lazy account creation, errors, the dispute state machine, the
  validity invariant, and logs of records.
- `accounting.dfy` (module `Accounting`): an independent reference for the
  balances: `held` is the sum of the deposits under open dispute, `available +
  held` the sum of deposits minus withdrawals not charged back. Every record
  keeps this, provided deposits and withdrawals use ids not seen before for
  their client; a reused id breaks it, as the lemmas there show.
- `scenarios.dfy` (module `Scenarios`): the step-by-step logs of the engine's
  own tests, with the expected account after every record, proved about the
  model.

Modelling choices:

- Amounts (`rust_decimal::Decimal`) are Dafny `real`: exact, unbounded.
- `ClientId` (`u16`) and `TxId` (`u32`) are subset types of `int` with those ranges.
- The dispute states `None`, `Open`, `Chargeback` of the source are named
  `Undisputed`, `Open`, `ChargedBack`, because `None` and `Chargeback` already
  name an `Option` constructor and a record kind.
- A recorded transaction's kind has the type `RecordKind`, which holds only
  `Deposit` and `Withdrawal`, so the unreachable `panic!` branch of the
  chargeback arm (src/engine.rs:112-114) cannot be written, and the assertion
  in `StoredTransaction::new` becomes a precondition that every call meets.
- `entry(id).or_default()` followed by in-place updates of the borrowed client
  is modelled as: look the account up (or take the default one), store it,
  compute the updated account as a value, store it back. The account is created
  before the amount check, so a failing record still leaves the (default)
  account of a new client in the map, as in the source.
- Rust's `?` is Dafny's `:-` on a `Result` datatype.

## Model

| member | source | states |
|---|---|---|
| Types.GetAmount | src/types.rs:34-40 | missing amount gives `AmountMissing(tx)`; an amount `<= 0` gives `AmountNotPositive(amount)`; success exactly when the amount is present and positive, and then it is that amount |
| Types.NewStoredTransaction | src/types.rs:60-69 | accepts only a deposit or withdrawal kind; keeps kind and amount; the record starts undisputed |
| Types.DefaultClient | src/types.rs:72-79 | zero available and held funds, unlocked, no transactions |
| Types.ChargedBackIsFinal | src/types.rs:43-51 | no dispute-state transition leaves the charged-back state |
| Engine.Step | src/engine.rs:52-121 | one record on one account: its closed form is `EngineProperties.LockedAccountIsInert` for a locked account, `EngineProperties.ErrorsComeOnlyFromAmounts` for the error cases, and the five arm lemmas below for the rest; `Engine.ApplyToClient` is the same dispatch written statement by statement |
| Engine.DepositStep | src/engine.rs:57-65 | succeeds exactly when the amount check does, and then credits `available`, keeps `held` and the lock, and records an undisputed deposit under the record's id; on an error the account is unchanged (closed form: `EngineProperties.DepositCredits`) |
| Engine.WithdrawalStep | src/engine.rs:66-76 | succeeds exactly when the amount check does; on an error, or with too little available, the account is unchanged; otherwise it debits `available` and records an undisputed withdrawal (closed form: `EngineProperties.WithdrawalDebitsOrIsDropped`) |
| Engine.DisputeStep | src/engine.rs:77-88 | keeps the total, the lock and the set of recorded ids; any change means the record existed undisputed and is now open (closed form: `EngineProperties.DisputeOpens`) |
| Engine.ResolveStep | src/engine.rs:89-100 | keeps the total, the lock and the set of recorded ids; any change means the record was open and is now undisputed (closed form: `EngineProperties.ResolveCloses`) |
| Engine.ChargebackStep | src/engine.rs:101-118 | keeps the set of recorded ids; any change means the record was open, is now charged back, and the account is locked (closed form: `EngineProperties.ChargebackReverses`) |
| Engine.ClientOf | src/engine.rs:50 | the stored account of a known client, the default account of an unknown one |
| Engine.Process | src/engine.rs:49-122 | after one record the engine has exactly the old clients plus the addressed one, and every other client's account is unchanged |
| Engine.ProcessAfterEntry | src/engine.rs:50-54 | processing is "create the entry, then update it": it equals storing the looked-up account and then the stepped account |
| Engine.ProcessAll | src/engine.rs:24-26 | a log never removes a client, only adds clients that its records address, and leaves unaddressed clients unchanged |
| Engine.Engine.constructor | src/engine.rs:12-16 | a new engine has no clients |
| Engine.Engine.ProcessTransaction | src/engine.rs:49-122 | the new accounts and the result are those of `Process` on the old accounts |
| Engine.Engine.ProcessRecords | src/engine.rs:24-26 | applying the records one by one, stopping at the first error, gives the accounts and result of `ProcessAll` |
| Engine.ApplyToClient | src/engine.rs:56-121 | the statement-by-statement dispatch on an unlocked account computes exactly the account and result of `Step` |
| EngineProperties.LockedAccountIsInert | src/engine.rs:52-54 | a locked account ignores every record and succeeds |
| EngineProperties.LockedClientIgnoresRecord | src/engine.rs:50-54 | a record for a locked client, of any kind and even without an amount, leaves the whole engine unchanged and succeeds |
| EngineProperties.UnseenClientStartsAtDefault | src/engine.rs:50 | an unseen client's record acts on a default account; a dispute-type record or a failing record leaves that default account in the engine |
| EngineProperties.ErrorsComeOnlyFromAmounts | src/engine.rs:56-76 | a record fails if and only if the account is unlocked, the record is a deposit or withdrawal, and its amount check fails; the error is the amount check's and the account is unchanged |
| EngineProperties.ErrorKeepsEngine | src/engine.rs:49-76 | a failed record only adds the addressed account as it was looked up, and returns the amount check's error |
| EngineProperties.DepositCredits | src/engine.rs:57-65 | a valid deposit adds to `available`, keeps `held` and the lock, and records an undisputed deposit under its id, replacing any earlier record |
| EngineProperties.WithdrawalDebitsOrIsDropped | src/engine.rs:66-76 | a valid withdrawal with enough available funds debits them and records an undisputed withdrawal; otherwise the account is unchanged and the result is success |
| EngineProperties.WithdrawalKeepsAvailableNonNegative | src/engine.rs:66-76 | a withdrawal never takes non-negative available funds below zero |
| EngineProperties.DisputeOpens | src/engine.rs:77-88 | a dispute of an undisputed deposit opens it and moves its amount from available to held; of an undisputed withdrawal only opens it; otherwise no change; the total is kept; success always |
| EngineProperties.ResolveCloses | src/engine.rs:89-100 | a resolve of an open record makes it undisputed again and releases a held deposit; otherwise no change; the total is kept; success always |
| EngineProperties.ChargebackReverses | src/engine.rs:101-118 | a chargeback of an open record marks it charged back and locks the account; a deposit leaves held, a withdrawal is paid back into available; otherwise no change |
| EngineProperties.DisputeThenResolveRestores | src/engine.rs:77-100 | disputing an undisputed transaction and resolving it gives back exactly the account before the dispute |
| EngineProperties.DisputeRecordsAreIdempotent | src/engine.rs:77-118 | repeating a dispute, resolve or chargeback right away changes nothing more |
| EngineProperties.StepFollowsDisputeMachine | src/engine.rs:56-119 | only the record with the record's own id can change; new records come only from deposits and withdrawals and are undisputed with the record's kind and amount; no record is removed; dispute-type records keep kind and amount and move the state along one transition or not at all |
| EngineProperties.StepPreservesValid | src/engine.rs:56-119 | every record keeps recorded amounts positive and keeps an account with a charged-back record locked |
| EngineProperties.ProcessPreservesValid | src/engine.rs:49-122 | the empty engine is valid and every record keeps every account valid |
| EngineProperties.ProcessAllPreservesValid | src/engine.rs:24-26 | a whole log keeps every account valid, wherever it stops |
| EngineProperties.ProcessAllAppend | src/engine.rs:24-26 | running a log in two parts equals running it whole; a failing first part ends the run |
| EngineProperties.ProcessAllErrorsComeFromAmounts | src/engine.rs:24-26 | a failed run's error is the amount check error of one of its deposits or withdrawals |
| EngineProperties.ChargebackIsFinal | src/engine.rs:101-105 | in a valid account a charged-back record belongs to a locked account, so no later record changes anything |
| Accounting.SumOverRemove | src/types.rs:78 | the sum over a client's recorded transactions can be taken with any one of them first |
| Accounting.SumOverUpdate | src/engine.rs:61-64 | inserting or replacing one recorded transaction changes the sum by the difference of its weights |
| Accounting.SumOverNonNegative | src/types.rs:78 | a sum of non-negative weights is non-negative |
| Accounting.DefaultClientBalanced | src/types.rs:72-79 | a new account agrees with its (empty) record of transactions |
| Accounting.StepKeepsBalanced | src/engine.rs:56-119 | each record keeps `held` equal to the open deposits and `available + held` equal to deposits minus withdrawals not charged back, unless it is a deposit or withdrawal that reuses a recorded id and changes the account |
| Accounting.ProcessKeepsBalanced | src/engine.rs:49-122 | the same for every account of the engine |
| Accounting.FreshAmountIdsTail | src/engine.rs:24-26 | when a log's deposits and withdrawals bring new ids for their clients, so do those of the rest of the log after its first record |
| Accounting.ProcessAllKeepsBalanced | src/engine.rs:24-26 | a whole log whose deposits and withdrawals bring new ids keeps every account balanced, wherever it stops |
| Accounting.HeldIsNonNegative | src/engine.rs:77-118 | in a valid, balanced account `held` is never negative |
| Accounting.ReusedIdBreaksBalance | src/engine.rs:57-65 | a deposit reusing the id of an open deposit replaces it, keeps `held`, and leaves held funds no record accounts for |
| Accounting.DuplicateIdStrandsHeldFunds | src/engine.rs:57-100 | deposit, dispute, then deposit again with the same id: the first amount stays held and neither resolve nor chargeback can release it |
| Scenarios.LiftReplays | src/engine.test.rs:1797-1809 | a log proved on one account replays on an engine holding at most that account, in particular on the empty engine, with just that client in the map after every record |
| Scenarios.ReplaysRunToTheEnd | src/engine.test.rs:1797-1809 | a log that replays record by record also runs as one batch to its last listed state with success |
| Scenarios.AccountLogRunsToTheEnd | src/engine.test.rs:1797-1809 | a one-client log that replays from a new account runs as one batch from the empty engine to just that client's last listed account, with success |
| Scenarios.AccountReplaysAppend | src/engine.test.rs:1797-1809 | two logs that replay one after the other replay as one |
| Scenarios.MissingDepositAmountFails | src/engine.test.rs:11-24 | a deposit without an amount fails with `AmountMissing(1)` and leaves the new client's default account |
| Scenarios.MissingWithdrawalAmountFails | src/engine.test.rs:26-39 | a withdrawal without an amount fails with `AmountMissing(1)` |
| Scenarios.ZeroAmountFails | src/engine.test.rs:41-54 | a zero amount fails with `AmountNotPositive(0)` |
| Scenarios.NegativeAmountFails | src/engine.test.rs:56-69 | a negative amount fails with `AmountNotPositive(-1)` |
| Scenarios.DepositScenario | src/engine.test.rs:71-137 | two deposits credit 1.5 and 2.5 and record both; the two records as one batch end in the same account |
| Scenarios.WithdrawalScenario | src/engine.test.rs:139-257 | a withdrawal from an empty account is dropped, a covered one is debited, an uncovered one is dropped; the log as one batch ends in the same account |
| Scenarios.UnknownIdScenario | src/engine.test.rs:262-297 | a dispute, resolve or chargeback of an unknown id creates the default account and changes nothing |
| Scenarios.SetupScenario | src/engine.test.rs:298-389 | deposit 1.5, withdraw 0.4, and an uncovered withdrawal of 1.5 leave 1.1 available with both records undisputed |
| Scenarios.DisputeDepositTailReplays | src/engine.test.rs:259-463 | after the setup, the first dispute of the deposit holds it and the second is ignored |
| Scenarios.DisputeDepositScenario | src/engine.test.rs:259-463 | a disputed deposit is held (available goes to -0.4), and a second dispute is ignored; every record as listed, and the log as one batch |
| Scenarios.WithdrawalDisputeOpens | src/engine.test.rs:560-594 | a dispute of the undisputed withdrawal opens it and leaves the balances alone |
| Scenarios.WithdrawalDisputeIgnored | src/engine.test.rs:595-629 | a second dispute of the open withdrawal changes nothing |
| Scenarios.DisputeWithdrawalTailReplays | src/engine.test.rs:560-629 | after the setup, the two disputes of the withdrawal replay as listed |
| Scenarios.DisputeWithdrawalScenario | src/engine.test.rs:465-633 | a disputed withdrawal only changes its state, once; every record as listed, and the log as one batch |
| Scenarios.ResolveDepositTailReplays | src/engine.test.rs:635-908 | after the setup: the early resolve is ignored, the dispute holds the deposit, the resolve releases it, the repeat is ignored |
| Scenarios.ResolveDepositScenario | src/engine.test.rs:635-908 | a resolve before a dispute is ignored; after one it releases the held deposit; a repeat is ignored; every record as listed, and the log as one batch |
| Scenarios.ResolveWithdrawalTailReplays | src/engine.test.rs:910-1112 | after the setup, the dispute and the resolve of the withdrawal replay as listed |
| Scenarios.ResolveWithdrawalScenario | src/engine.test.rs:910-1112 | a disputed withdrawal is resolved once; every record as listed, and the log as one batch |
| Scenarios.ChargebackDepositTailReplays | src/engine.test.rs:1114-1352 | after the setup: the early chargeback is ignored, the dispute holds the deposit, the chargeback removes it and locks the account |
| Scenarios.ChargebackDepositScenario | src/engine.test.rs:1114-1352 | a chargeback before a dispute is ignored even with an amount; after one it removes the held deposit and locks the account; every record as listed, and the log as one batch |
| Scenarios.LockedReplays | src/engine.rs:52-54 | on a locked account every log of records for that client replays with success and no change at all |
| Scenarios.ChargebackWithdrawalIgnored | src/engine.test.rs:1449-1483 | a chargeback of the undisputed withdrawal, amount or not, changes nothing |
| Scenarios.ChargebackWithdrawalLocks | src/engine.test.rs:1518-1552 | the chargeback of the open withdrawal pays 0.4 back into available, marks it charged back and locks the account |
| Scenarios.ChargebackWithdrawalTailReplays | src/engine.test.rs:1449-1552 | after the setup, the ignored chargeback, the dispute and the chargeback replay as listed |
| Scenarios.ChargebackWithdrawalLocksAccount | src/engine.test.rs:1354-1552 | the setup and the chargeback replay from a new account and leave it locked with 1.5 available |
| Scenarios.ChargebackWithdrawalLogReplays | src/engine.test.rs:1354-1794 | the whole log replays from a new account and ends locked, the records after the lock changing nothing |
| Scenarios.ChargebackWithdrawalScenario | src/engine.test.rs:1354-1794 | a charged-back withdrawal is paid back and locks the account; every later deposit, withdrawal, dispute, resolve and chargeback is ignored; every record as listed, and the log as one batch |

## Left out

- `read_and_process_input` (src/engine.rs:18-29): reading and decoding the CSV file is I/O through the `csv` and `serde` crates and is not modelled, and neither is the `InvalidInput` error it produces (src/types.rs:84). Its loop over decoded records, stopping at the first error, is `Engine.Engine.ProcessRecords`.
- `print_clients` (src/engine.rs:31-44): output to stdout, in `HashMap` iteration order.
- src/main.rs: command-line argument handling, error printing and process exit.
- Parsing amounts from strings and the serde attributes (src/types.rs:7-8, 21-30): behaviour of foreign libraries.
- `rust_decimal` scale, precision and overflow: amounts are exact unbounded reals, so an overflowing addition, which would panic in the source, is not modelled.
- Aliasing through `&mut Client`: the borrowed account is modelled as a value that is written back into the map, which gives the same final state.
- The order of a `HashMap`: maps are unordered in the model too; nothing of the engine depends on it.
- Accounting.StepKeepsBalanced: the balance agreement is not proved for a deposit or withdrawal that reuses a recorded id and changes the account, since the source then replaces the earlier record; `Accounting.ReusedIdBreaksBalance` and `Accounting.DuplicateIdStrandsHeldFunds` show what happens then.
- Accounting.ProcessKeepsBalanced: the same restriction.
- Accounting.ProcessAllKeepsBalanced: asks that every deposit and withdrawal of the log bring a new id for its client, a stronger condition than the one-record lemmas need, because whether a reused id changes the account depends on the state the log has reached.

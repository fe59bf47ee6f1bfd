# kc-bank account core in Dafny

This project models the money-transfer path of the kc-bank backend. It covers:

- the account repository over its `accounts` collection;
- the account command handler: opening an account, the transfer chain, and the queue consumer that runs transfers;
- the IBAN generator;
- the two HTTP response mappers.

The model follows the Go code, including where the code falls short of a safe ledger:

- nothing enforces IBAN uniqueness;
- the amount's sign is never checked;
- a transfer from an IBAN to itself is not rejected;
- the two balance writes run in goroutines with no version check.

The code has no optimistic versioning, lock ordering, idempotency keys, compensation or acknowledge-after-commit, so neither does the model.

Modules, one per source file, plus shared definitions:

- `Wrappers`: `Option` and `Result`.
- `Domain`: `Account`, `User`, and the errors with their message texts.
- `AccountStore`: what the collection means, as a map from document key to account, and what each repository operation does to it. This includes `TransferOutcome`, the set of states the two transfer legs can leave behind. It also holds the lemmas about these definitions.
- `Repository`: the class `AccountRepository`, whose field `docs` is the collection. Its methods are proved against `AccountStore`.
- `Iban`: the class `IbanService`. The seeded random generator is an oracle `source: nat -> nat` plus a count `pos` of `Intn` calls already made. `Intn(n)` is `source(pos) % n`; `source(n)` is the value behind the n-th call. `RandomString` fills a char array in an indexed loop.
- `AccountCommand`: the class `CommandHandler`, holding the repository and the IBAN service. `HandledTransfer` is the relation that describes the handler's `TransferMoney`. `ConsumedRun` describes the consumer loop.
- `AccountResponses`, `UserResponses`: the response mappers.

Modelling decisions:

- **Balances** are integers. Times are integers.
- **`FindByIban` and `CheckAmountForFromIban`** run `LIMIT 1` queries with no `ORDER BY`. Each returns some matching account, chosen nondeterministically. The two choices are independent. So when two accounts share an IBAN, the balance checked may not be the balance debited (`SharedIbanCanOverdraw`).
- **The two goroutines of repository `TransferMoney`** are modelled as follows:
  - For distinct ids, the legs touch different documents, so they run one after the other.
  - For the same id, the legs race on one document. The final balance can be `b - amount`, `b` or `b + amount` (`RacedSelfTransfer`).
  - When both legs fail, Go's `errgroup` returns whichever error came first. The contract admits either one.
  - A leg whose document exists is applied even when the other leg fails.
- **Inserts** follow Couchbase's rules: a key already present is refused with "document exists", and an empty key with "invalid argument". So every stored key is a non-empty id equal to its document's `Id`. That is why an empty id from `FindByIban` means "no such IBAN".
- **`uuid.New()` and the two `time.Now()` calls** in `BuildEntity` become the parameters `id`, `createdAt` and `updatedAt` of `Save`. The two instants are separate and need not be equal.
- **Point reads** (`GetAccount`) follow Couchbase too: the empty key is refused with "invalid argument", which is not "document not found" and so is returned unwrapped. Any other absent key gives "account not found".
- **`Command` and `TransferMoneyCommand`** carry only the fields the handler reads: currency and user id, and amount, from-IBAN and to-IBAN.

## Model

| member | source | states |
|---|---|---|
| `Domain.MessageIdentifies` | app/repository/accountRepository.go:189-218 | The error texts ("account not found", "invalid argument", "failed to get from account: …", "failed to get to account: …", and the handler's three check failures) tell errors apart. Two errors have the same text exactly when they are the same error, wrapped cause included. |
| `AccountStore.InsertThenLookup` | app/repository/accountRepository.go:36-48 | An insert succeeds exactly when the key is non-empty and absent. After it, the key holds the new account and every other key is unchanged. A refused insert changes nothing. The key invariant is kept. |
| `Repository.AccountRepository.CreateAccount` | app/repository/accountRepository.go:36-48 | Stores the account under `account.id`, or returns "document exists" / "invalid argument" and leaves the collection unchanged. |
| `Repository.AccountRepository.GetAccount` | app/repository/accountRepository.go:65-87 | Succeeds exactly when the id is non-empty and stored, and returns that record. The empty id fails with "invalid argument", passed through unwrapped. Any other absent id fails with "account not found". |
| `Repository.AccountRepository.GetAllAccounts` | app/repository/accountRepository.go:89-118 | Returns every stored account exactly once and nothing else, ordered by `CreatedAt` with the newest first. |
| `Repository.AccountRepository.FindByIban` | app/repository/accountRepository.go:121-151 | Returns a non-empty id exactly when some account has the IBAN, and that id belongs to such an account. Otherwise it returns "" and no error. |
| `Repository.AccountRepository.CheckAmountForFromIban` | app/repository/accountRepository.go:153-183 | "true" means some account with the IBAN holds at least the amount. "false" means no account has the IBAN, or one that has it holds less. With unique IBANs, the answer is true exactly when the IBAN's account covers the amount. |
| `Repository.AccountRepository.TransferMoney` | app/repository/accountRepository.go:185-240 | The new store and the error are an outcome the two legs can produce (`TransferOutcome`). A failing leg wraps its read error: "invalid argument" for the empty id, "account not found" for any other absent id. The key invariant is kept. |
| `AccountStore.TransferDistinct` | app/repository/accountRepository.go:189-232 | For distinct stored ids, there is no error. From is debited and to is credited by the amount, and their sum is unchanged. Only the `Balance` field of the two documents changes. Every other account is unchanged. The debited balance becomes negative exactly when it was below the amount. |
| `AccountStore.TransferMissing` | app/repository/accountRepository.go:189-237 | A missing id yields that leg's wrapped error: "invalid argument" for the empty id, "account not found" for any other. The leg whose document exists is still applied. |
| `AccountStore.TransferKeepsTotal` | app/repository/accountRepository.go:197-224 | Between distinct ids, the key invariant is kept. When both ids are stored, the sum of all balances is unchanged. |
| `AccountStore.SelfTransferTotal` | app/repository/accountRepository.go:186-237 | With one id on both sides, the sum of all balances changes by -amount, 0 or +amount, depending on the race. |
| `AccountCommand.BuildEntity` | app/services/account/command/commandHandler.go:152-162 | The new account has balance 0, the given IBAN, the command's currency and user id, the given id, and CreatedAt and UpdatedAt each equal to its own clock reading. |
| `AccountCommand.NewAccountAddsNoMoney` | app/services/account/command/commandHandler.go:152-162 | Inserting a built account adds one record with balance 0 and the given IBAN, and leaves the sum of all balances unchanged. |
| `AccountCommand.CommandHandler.Save` | app/services/account/command/commandHandler.go:46-60 | Makes exactly one insert, of `BuildEntity` with the IBAN `GenerateIBAN("TR", 5, 16)` draws, and returns the insert's error unchanged. It makes 23 `Intn` calls. |
| `AccountCommand.CommandHandler.TransferMoney` | app/services/account/command/commandHandler.go:62-102 | The error and the new store are one of the outcomes `HandledTransfer` allows. |
| `AccountCommand.HandlerChecksInOrder` | app/services/account/command/commandHandler.go:62-102 | "from iban does not exist" happens exactly when the from-IBAN is unknown. "to iban does not exist" happens exactly when the from-IBAN is known and the to-IBAN is not. "balance is not enough" happens only after both resolve and an account is short. Every failure leaves the store unchanged. Success comes only after all three checks pass. |
| `AccountCommand.HandlerKeepsWellKeyed` | app/services/account/command/commandHandler.go:62-102 | Every handled transfer keeps each document under its own key. |
| `AccountCommand.HandlerKeepsTotal` | app/services/account/command/commandHandler.go:85-101 | For two different IBANs, the sum of all balances is unchanged, whatever the outcome. |
| `AccountCommand.HandlerWithUniqueIbans` | app/services/account/command/commandHandler.go:85-101 | With unique IBANs and two distinct accounts, the outcome is fixed: "balance is not enough" exactly when from's balance is below the amount. Otherwise the transfer succeeds, debiting from and crediting to. |
| `AccountCommand.HandlerKeepsNonNegative` | app/services/account/command/commandHandler.go:85-95 | With unique IBANs and a non-negative amount, non-negative balances stay non-negative. |
| `AccountCommand.SharedIbanCanOverdraw` | app/services/account/command/commandHandler.go:65-95 | Counterexample: two accounts share an IBAN. The check reads the rich one, and the empty one is debited to -50. |
| `AccountCommand.NegativeAmountMovesMoneyBack` | app/services/account/command/commandHandler.go:85-95 | A negative amount passes the check and moves money from the to-account to the from-account. |
| `AccountCommand.SelfTransferMayCreateMoney` | app/services/account/command/commandHandler.go:62-102 | A transfer from an IBAN to itself succeeds. One permitted outcome raises the sum of all balances by the amount. |
| `AccountCommand.CommandHandler.TransferMoneyWithRabbitMQConsumer` | app/services/account/command/commandHandler.go:134-149 | Every delivery is handled, in order. Unparsable ones are skipped with no change to the store. Each parsed one is a `HandledTransfer` step from the state the previous one left behind, and a failure does not stop later ones. |
| `AccountCommand.ConsumedRunKeepsTotal` | app/services/account/command/commandHandler.go:134-149 | When no parsed request names one IBAN on both sides, a consumed run keeps the key invariant and the sum of all balances. |
| `AccountCommand.FailedRunLeavesStore` | app/services/account/command/commandHandler.go:134-149 | A run in which every delivery was skipped or failed leaves the store as it was. |
| `Iban.IbanService.Intn` | pkg/services/ibanService.go:36 | The result is below n and is the value behind the next call. It advances the call count by one. |
| `Iban.IbanService.RandomString` | pkg/services/ibanService.go:33-39 | Position i of the result is the charset character at the value of Intn call i modulo the charset's length, and exactly `length` `Intn` calls are made. |
| `Iban.RandomCharsShape` | pkg/services/ibanService.go:33-39 | The result has exactly `length` characters, each a member of `charset`. |
| `Iban.IbanService.GenerateIBAN` | pkg/services/ibanService.go:24-31 | Returns the country code, 2 check digits, the bank code and the account number, drawn in that order. It makes 2 + bankCodeLen + accountLen `Intn` calls. |
| `Iban.IbanShape` | pkg/services/ibanService.go:24-31 | The IBAN is the country code followed by 2 + bankCodeLen + accountLen decimal digits. |
| `Iban.AccountIbanShape` | app/services/account/command/commandHandler.go:49 | An account's IBAN is "TR" followed by 23 digits, 25 characters in all. |
| `Iban.AnyDigitsCanBeDrawn` | pkg/services/ibanService.go:26-28 | Any digit string of the right length can be produced. The check digits are not computed from the rest, so there is no mod-97 checksum. |
| `AccountResponses.ToAccountResponseList` | app/controllers/account/response/account.go:30-38 | Same length as the input. Element i is the response for account i, so order is kept. Empty input gives []. |
| `AccountResponses.AccountResponseLossless` | app/controllers/account/response/account.go:18-28 | Two accounts map to the same response exactly when they are equal. |
| `AccountResponses.AccountResponseFields` | app/controllers/account/response/account.go:18-28 | Id, Currency, Iban, Balance, UserId, CreatedAt and UpdatedAt are copied unchanged. |
| `UserResponses.ToUserResponseList` | app/controllers/user/response/user.go:30-38 | Same length as the input. Element i is the response for user i. Empty input gives []. |
| `UserResponses.UserResponseForgetsOnlyPassword` | app/controllers/user/response/user.go:8-28 | Two users map to the same response exactly when they agree on every field except Password. So Password is never exposed, and nothing else is lost. |
| `UserResponses.UserResponseFields` | app/controllers/user/response/user.go:18-28 | Id, FirstName, LastName, Email, Age, CreatedAt and UpdatedAt are copied unchanged. |

## Left out

- Couchbase failures are not modelled: connection errors, timeouts, `context` cancellation, query and row-scan errors, unmarshalling errors, and a `MutateIn` on a document removed after it was read. Each query is modelled by its meaning over the in-memory collection.
- `UpdateAccount` is not modelled. It is not on the transfer path, and nothing in the modelled code calls it.
- Couchbase's 250-byte limit on document keys is not modelled.
- `GetAllAccounts`' `ORDER BY a.CreatedAt DESC` is modelled as ordering by instant. The query actually compares the stored RFC 3339 text of the time, which differs from instant order when zone offsets differ or fractional seconds are trimmed differently.
- `Iban.IbanService.RandomString` and `Iban.IbanService.GenerateIBAN` take natural-number lengths. In Go a negative length makes `make` panic. The only caller passes 5 and 16.
- `Iban.IbanService.RandomString` (with `Iban.RandomChars` and `Iban.RandomCharsShape`) reads the charset as characters. Go indexes it by byte, so the two agree only for ASCII charsets; for a multi-byte character Go can return a lone UTF-8 byte. The program only passes the ASCII digits "0123456789".
- `Iban.IbanService.RandomString` requires a non-empty charset when the length is positive. Go panics in `Intn(0)` in that case, and the panic is not modelled.
- The rejection sampling inside `rand.Intn`, which can consume several raw generator values per call, is not modelled. The oracle gives one value per call.
- Concurrency between separate requests is not modelled. The model runs one handler call at a time; only the race inside one repository `TransferMoney` is captured. Lost updates between concurrent transfers are therefore not modelled.
- float64 balances and their rounding are not modelled; balances are exact integers.
- `TransferMoneyWithRabbitMQPublisher` is not modelled. It is JSON encoding plus a broker publish.
- Parts of the consumer are not modelled: `Consume` failing (which ends the process with `log.Fatal`), the auto-acknowledgement of deliveries, and JSON decoding. Decoding is an opaque `Option`.
- Log output is not modelled. The consumer's per-delivery `Handling` result stands in for it.
- `uuid.New()`, `time.Now()` and the time-based seeding of the generator are not modelled; they are foreign calls or nondeterminism. Ids and instants are parameters, and the generator is an oracle.
- Go's nil slice versus empty slice is not modelled; both are `[]`. `GetAllAccounts` returns a nil slice when there are no rows, and the list mappers return an empty non-nil one.
- Out of scope: the HTTP server, routing, middleware, error responses, configuration, `main.go`, the controllers' `ToCommand` copies and `Handle` pass-throughs, the query services, the user repository and user command handler, and bcrypt password hashing.

# Bank service core, modelled in Dafny

This project models the core of a small Spring banking service. The service
records transactions against accounts identified by IBAN, keeps each
account's balance from going negative, and answers status requests about a
transaction for a channel (CLIENT, ATM or INTERNAL).

What is modelled:

- **Posting** (`TransactionService.TransactionService.Save`). The service object
  holds the two stores as maps: accounts by IBAN and transactions by reference.
  A posting goes through these steps in order:
  1. Refuse a non-empty reference that is already stored.
  2. Compute the new balance with `CheckBalance`, refusing a negative one.
  3. Upsert the account through the `AccountDto` builders.
  4. Store the transaction, built with the `TransactionDto` builders. It keeps
     its own reference or gets a generated one.

  `Valid()` is the stores' invariant: rows live under their own keys, balances
  are non-negative, and every transaction's account is stored.
- **Status derivation.** The service has two implementations of it:
  - `TransactionStatusService` uses chains of optional candidates.
  - `TransactionService` uses an if/else chain and fills a `TransactionStatus`
    builder in place.

  The contracts of `TransactionService.CalculateStatus`,
  `TransactionService.BuildTransactionStatus` and
  `TransactionService.TransactionService.FindStatusFromChannel` state that the
  two implementations give the same answer, errors included. The fee-adjusted
  amount is the same code in both services (TransactionService.java:212-219
  and TransactionStatusService.java:152-159). It is defined once, in
  `TransactionStatusService.CalculateAmountSubtractingFee`.
- **Listing.**
  - `AccountService.FindTransactionsById` is a stable sort of an account's
    transactions, which is what `Stream.sorted` gives.
  - `TransactionService.TransactionService.FindAllForAccount` is the store query.
    A loop scans the store in an unspecified order, and the result is then
    sorted by amount when the token asks for it.
  - Sort tokens are matched as `String.equalsIgnoreCase` matches them
    (`BankTypes.EqualsIgnoreCase`).
- **Entities and builders.**
  - `Transaction`, `Account`, `TransactionStatus`, `TransactionStatusRequester`,
    `AccountDto` and `TransactionDto` are Dafny datatypes.
  - Each builder is a class whose setters assign one field.
  - The `validate()` methods are methods that fill a `StringBuilder` through
    `StringBuilderUtils.Append`.
  - `equals`/`hashCode` follow `EqualsBuilder` and `HashCodeBuilder(17, 37)`,
    with 32-bit wrap-around written out (`BankTypes.Wrap32`,
    `BankTypes.StringHash`).
- **Reference generation** (`TransactionReferenceGenerator.Generate`). The two
  `Random.nextInt` draws are parameters: `intDraw` in [0, 20000) and
  `charDraw` in [0, 26).

Representation choices:

- Money is an integer number of cents.
- A date is a day number plus a second of the day, and only the day takes
  part in status derivation.
- The clock ("now") is a parameter.
- Nullable Java references are `Option` values.
- An exception the code throws is the `Failure` (or `Fail`) case of a result,
  carrying a `BankTypes.Error` with the exception's message.

Where the documentation and the code disagree, the model follows the code:

- The javadoc of `generateRandomInt` says "between 1 to 20000". The code calls
  `nextInt(20000)`, so the number is in [0, 20000).
- The javadoc of `checkBalance` speaks of a first transaction that "is not a
  credit". The code refuses a first transaction with a negative amount, which
  is a debit.
- The balance error is a `ResponseStatusException` with BAD_REQUEST, not a
  dedicated insufficient-funds error.
- A generated reference is never checked against the store. The duplicate
  check only looks at the caller's reference. A generated reference that
  collides with a stored one replaces that transaction, and `Save`'s contract
  states exactly this: the store becomes `old(transactions)[reference := saved]`.
- `AccountService.java` works on `Account` rows that embed their transactions.
  `TransactionService.java` instead uses an account service that reads and
  saves `AccountDto` rows. Both are modelled as written:
  - `AccountService` is pure functions over a table of `Account`.
  - The `TransactionService` class holds `AccountDto` rows.

## Model

| member | source | states |
|---|---|---|
| BankTypes.DataNotFoundMessageExample | src/main/java/com/codechallenge/bank/exception/DataNotFoundException.java:11-13 | The message for object type "type" and id "abc" is "Could not find type using abc", the text the controller advice delivers. |
| BankTypes.DataNotFoundMessageInjective | src/main/java/com/codechallenge/bank/exception/DataNotFoundException.java:11-13 | For one object type, two DataNotFound messages are equal only when their ids are equal, so the message identifies the missing id. |
| BankTypes.DateOrNow | src/main/java/com/codechallenge/bank/model/dto/AccountDto.java:37 | A null date becomes "now"; a given date is kept unchanged (the constructors' shared date default). |
| BankTypes.EqualsIgnoreCaseSpelling | src/main/java/com/codechallenge/bank/service/TransactionService.java:62 | Matching the lower-case token ("asc") and the upper-case token ("ASC") case-insensitively accept exactly the same strings. |
| StringBuilderUtils.Appended | src/main/java/com/codechallenge/bank/util/StringBuilderUtils.java:17-26 | The old text is always a prefix of the new text; on an empty builder the result is the message itself, or stays empty for a null message. |
| StringBuilderUtils.Append | src/main/java/com/codechallenge/bank/util/StringBuilderUtils.java:17-26 | A null builder is left alone; otherwise the builder's text becomes `Appended(old text, message)`: a separator only when text was already present, then the message if it is not null. |
| StringBuilderUtils.NullMessageIsEmptyMessage | src/main/java/com/codechallenge/bank/util/StringBuilderUtils.java:22-24 | A null message and an empty message leave the same text. |
| StringBuilderUtils.NullMessageAppendsSeparator | src/main/java/com/codechallenge/bank/util/StringBuilderUtils.java:19-24 | On a non-empty builder a null message appends ", " alone. |
| StringBuilderUtils.AppendSeparates | src/main/java/com/codechallenge/bank/util/StringBuilderUtils.java:19-24 | On a non-empty builder the message is preceded by ", ". |
| StringBuilderUtils.AppendAllIsJoin | src/main/java/com/codechallenge/bank/util/StringBuilderUtils.java:17-26 | Appending non-empty messages one by one to an empty builder gives exactly those messages joined by ", ". |
| StringBuilderUtils.TwoMessages | src/main/java/com/codechallenge/bank/util/StringBuilderUtils.java:19-24 | "test" followed by "other test" gives "test, other test". |
| TransactionReferenceGenerator.IntToString | src/main/java/com/codechallenge/bank/util/TransactionReferenceGenerator.java:17-19 | The decimal form of a number is non-empty, all digits, and has no leading zero. |
| TransactionReferenceGenerator.IntToStringRoundTrip | src/main/java/com/codechallenge/bank/util/TransactionReferenceGenerator.java:17-19 | Parsing the decimal form of n gives back n. |
| TransactionReferenceGenerator.IntToStringLength | src/main/java/com/codechallenge/bank/util/TransactionReferenceGenerator.java:25-27 | A number below 10^k has at most k digits, so every draw of nextInt(20000) has at most 5. |
| TransactionReferenceGenerator.GenerateRandomCharAsWritten | src/main/java/com/codechallenge/bank/util/TransactionReferenceGenerator.java:33-35 | The letter as the code computes it: one character, upper-cased with the default locale. |
| TransactionReferenceGenerator.TurkicLocaleLetterOutsideAZ | src/main/java/com/codechallenge/bank/util/TransactionReferenceGenerator.java:33-35 | Under a Turkish or Azerbaijani default locale, draw 8 gives U+0130, which is not in A-Z. |
| TransactionReferenceGenerator.GenerateRandomChar | src/main/java/com/codechallenge/bank/util/TransactionReferenceGenerator.java:33-35 | The corrected letter is in A-Z, and it is the draw-th letter. |
| TransactionReferenceGenerator.AsWrittenAgreesOutsideTurkic | src/main/java/com/codechallenge/bank/util/TransactionReferenceGenerator.java:33-35 | In every other locale the code as written gives exactly the corrected letter. |
| TransactionReferenceGenerator.Generate | src/main/java/com/codechallenge/bank/util/TransactionReferenceGenerator.java:17-19 | A reference is 2 to 6 characters long: digits followed by one upper-case letter. |
| TransactionReferenceGenerator.GenerateAsWritten | src/main/java/com/codechallenge/bank/util/TransactionReferenceGenerator.java:17-35 | generate() as written: the decimal digits of the numeric draw followed by one character, the letter upper-cased in the default locale. |
| TransactionReferenceGenerator.GenerateAsWrittenOutsideTurkic | src/main/java/com/codechallenge/bank/util/TransactionReferenceGenerator.java:17-35 | Under every non-Turkic default locale the reference as written equals the intended one. |
| TransactionReferenceGenerator.GenerateAsWrittenTurkic | src/main/java/com/codechallenge/bank/util/TransactionReferenceGenerator.java:33-35 | Under a Turkic default locale, letter draw 8 gives a reference that differs from the intended one and does not end in A-Z. |
| TransactionReferenceGenerator.GenerateRoundTrip | src/main/java/com/codechallenge/bank/util/TransactionReferenceGenerator.java:17-35 | Splitting off the last character and parsing the digits recovers both draws. |
| TransactionReferenceGenerator.GenerateInjective | src/main/java/com/codechallenge/bank/util/TransactionReferenceGenerator.java:17-35 | Different draws give different references. |
| Sorting.Insert | src/main/java/com/codechallenge/bank/service/AccountService.java:62-68 | Insertion adds exactly one occurrence of the element. |
| Sorting.SortBy | src/main/java/com/codechallenge/bank/service/AccountService.java:62-68 | The sorted list is a permutation of the input. |
| Sorting.InsertSorted | src/main/java/com/codechallenge/bank/service/AccountService.java:62-68 | Inserting into an ordered list keeps it ordered. |
| Sorting.SortBySorted | src/main/java/com/codechallenge/bank/service/AccountService.java:62-68 | The result is ordered by the key in the requested direction: non-decreasing for ASC, non-increasing for DESC. |
| Sorting.InsertWithKey | src/main/java/com/codechallenge/bank/service/AccountService.java:62-68 | Insertion places the element in front of every element with the same key. |
| Sorting.SortByStable | src/main/java/com/codechallenge/bank/service/AccountService.java:62-68 | The sort is stable: for every key value, the elements with that key keep their relative order. |
| Model.Transaction.EqualsAgreesWithHashCode | src/main/java/com/codechallenge/bank/model/Transaction.java:81-96 | Transactions with the same reference hash equally, whatever their other fields; equality looks at the reference alone. |
| Model.Transaction.ConstraintViolations | src/main/java/com/codechallenge/bank/model/Transaction.java:26-33 | No violation iff the account IBAN is non-empty and the fee is null or at least 0; each broken constraint reports its own message. |
| Model.TransactionBuilder.constructor | src/main/java/com/codechallenge/bank/model/Transaction.java:49-51 | A new builder holds null in every field and amount 0. |
| Model.TransactionBuilder.Of | src/main/java/com/codechallenge/bank/model/Transaction.java:116-123 | The copy builder holds all six fields of the transaction. |
| Model.TransactionBuilder.SetReference | src/main/java/com/codechallenge/bank/model/Transaction.java:125-128 | Sets the reference and nothing else. |
| Model.TransactionBuilder.SetAccount | src/main/java/com/codechallenge/bank/model/Transaction.java:130-133 | Sets the account IBAN and nothing else. |
| Model.TransactionBuilder.SetDate | src/main/java/com/codechallenge/bank/model/Transaction.java:135-138 | Sets the date and nothing else. |
| Model.TransactionBuilder.SetAmount | src/main/java/com/codechallenge/bank/model/Transaction.java:140-143 | Sets the amount and nothing else. |
| Model.TransactionBuilder.SetFee | src/main/java/com/codechallenge/bank/model/Transaction.java:145-148 | Sets the fee and nothing else. |
| Model.TransactionBuilder.SetDescription | src/main/java/com/codechallenge/bank/model/Transaction.java:150-153 | Sets the description and nothing else. |
| Model.TransactionBuilder.Build | src/main/java/com/codechallenge/bank/model/Transaction.java:40-47 | The built transaction carries the builder's fields, and a null date is replaced by "now". |
| Model.CopyTransaction | src/main/java/com/codechallenge/bank/model/Transaction.java:116-123 | Copying through the builder keeps every field and only fills in a missing date, so a dated transaction is copied exactly. |
| Model.Account.Validate | src/main/java/com/codechallenge/bank/model/Account.java:60-68 | Fails iff the IBAN is null or empty, with exactly "the IBAN number of the account is required". |
| Model.Account.EqualsAgreesWithHashCode | src/main/java/com/codechallenge/bank/model/Account.java:70-85 | Accounts with the same IBAN hash equally; equality looks at the IBAN alone. |
| Model.AccountBuilder.constructor | src/main/java/com/codechallenge/bank/model/Account.java:96-104 | A new builder has no IBAN and no date, and its transaction list is empty. |
| Model.AccountBuilder.SetIban | src/main/java/com/codechallenge/bank/model/Account.java:106-109 | Sets the IBAN and nothing else. |
| Model.AccountBuilder.SetDate | src/main/java/com/codechallenge/bank/model/Account.java:111-114 | Sets the date and nothing else. |
| Model.AccountBuilder.SetTransactions | src/main/java/com/codechallenge/bank/model/Account.java:116-119 | Sets the transaction list and nothing else. |
| Model.AccountBuilder.Build | src/main/java/com/codechallenge/bank/model/Account.java:41-45 | The built account carries IBAN and transactions, and a null date is replaced by "now". |
| Model.NewAccount | src/main/java/com/codechallenge/bank/model/Account.java:96-123 | An account built with only an IBAN has no transactions and opens "now". |
| Model.TransactionStatus.Validate | src/main/java/com/codechallenge/bank/model/TransactionStatus.java:60-71 | Fails iff the reference is empty or the status is null; the message joins the missing fields' messages with ", ". |
| Model.TransactionStatus.MissingFieldsText | src/main/java/com/codechallenge/bank/model/TransactionStatus.java:60-71 | Appending the missing fields' messages one by one gives exactly their ", "-joined text, and that text is empty iff neither field is missing, so validate() throws exactly when a field is missing. |
| Model.TransactionStatus.BothFieldsMissing | src/main/java/com/codechallenge/bank/model/TransactionStatus.java:61-67 | With both fields missing, the message is "the reference is required, the status is required". |
| Model.TransactionStatus.EqualsAgreesWithHashCode | src/main/java/com/codechallenge/bank/model/TransactionStatus.java:73-90 | Statuses with the same reference and status hash equally, whatever their amount and fee. |
| Model.TransactionStatusBuilder.constructor | src/main/java/com/codechallenge/bank/model/TransactionStatus.java:97-110 | A new builder holds null in every field. |
| Model.TransactionStatusBuilder.SetReference | src/main/java/com/codechallenge/bank/model/TransactionStatus.java:112-115 | Sets the reference and nothing else. |
| Model.TransactionStatusBuilder.SetStatus | src/main/java/com/codechallenge/bank/model/TransactionStatus.java:117-120 | Sets the status and nothing else. |
| Model.TransactionStatusBuilder.SetAmount | src/main/java/com/codechallenge/bank/model/TransactionStatus.java:122-125 | Sets the amount and nothing else. |
| Model.TransactionStatusBuilder.SetFee | src/main/java/com/codechallenge/bank/model/TransactionStatus.java:127-130 | Sets the fee and nothing else. |
| Model.TransactionStatusBuilder.Build | src/main/java/com/codechallenge/bank/model/TransactionStatus.java:36-41 | The built status holds exactly the builder's fields, so fields never set stay null. |
| Model.TransactionStatusRequester.Validate | src/main/java/com/codechallenge/bank/model/TransactionStatusRequester.java:41-50 | Fails iff the reference is empty, with exactly "the reference is required"; a null channel passes. |
| Model.TransactionStatusRequester.EqualsAgreesWithHashCode | src/main/java/com/codechallenge/bank/model/TransactionStatusRequester.java:52-69 | Requests with the same reference and channel hash equally. |
| Model.TransactionStatusRequesterBuilder.constructor | src/main/java/com/codechallenge/bank/model/TransactionStatusRequester.java:76-87 | A new builder holds no reference and no channel. |
| Model.TransactionStatusRequesterBuilder.SetReference | src/main/java/com/codechallenge/bank/model/TransactionStatusRequester.java:89-92 | Sets the reference and nothing else. |
| Model.TransactionStatusRequesterBuilder.SetChannel | src/main/java/com/codechallenge/bank/model/TransactionStatusRequester.java:94-97 | Sets the channel and nothing else. |
| Model.TransactionStatusRequesterBuilder.Build | src/main/java/com/codechallenge/bank/model/TransactionStatusRequester.java:28-31 | The built request holds the builder's reference and channel. |
| Dto.AccountDto.EqualsAgreesWithHashCode | src/main/java/com/codechallenge/bank/model/dto/AccountDto.java:65-80 | Accounts with the same IBAN hash equally, whatever their dates and balances. |
| Dto.AccountDtoBuilder.constructor | src/main/java/com/codechallenge/bank/model/dto/AccountDto.java:87-96 | A new builder has no IBAN and no date, balance 0, and an empty transaction list. |
| Dto.AccountDtoBuilder.SetIban | src/main/java/com/codechallenge/bank/model/dto/AccountDto.java:104-107 | Sets the IBAN and nothing else. |
| Dto.AccountDtoBuilder.SetDate | src/main/java/com/codechallenge/bank/model/dto/AccountDto.java:109-112 | Sets the date and nothing else. |
| Dto.AccountDtoBuilder.SetBalance | src/main/java/com/codechallenge/bank/model/dto/AccountDto.java:114-120 | Always assigns the balance; reports BAD_REQUEST "The balance account could not be below 0" iff it is negative. |
| Dto.AccountDtoBuilder.SetTransactions | src/main/java/com/codechallenge/bank/model/dto/AccountDto.java:122-125 | Sets the transaction list and nothing else. |
| Dto.AccountDtoBuilder.Build | src/main/java/com/codechallenge/bank/model/dto/AccountDto.java:35-39 | The built account carries IBAN and balance, and a null date is replaced by "now". |
| Dto.AccountDtoBuilderForIban | src/main/java/com/codechallenge/bank/model/dto/AccountDto.java:49-51 | builder(iban) sets the IBAN only, so the balance starts at 0. |
| Dto.AccountDtoBuilderOf | src/main/java/com/codechallenge/bank/model/dto/AccountDto.java:98-102 | The copy builder holds IBAN, date and balance; it fails iff the copied balance is negative. |
| Dto.NewAccountDto | src/main/java/com/codechallenge/bank/model/dto/AccountDto.java:49-51 | builder(iban).build() is the account with that IBAN, opened "now", with balance 0. |
| Dto.CopyAccountDto | src/main/java/com/codechallenge/bank/model/dto/AccountDto.java:98-102 | Copying through the builder gives back the same account, or BAD_REQUEST when its balance is negative. |
| Dto.WithBalance | src/main/java/com/codechallenge/bank/model/dto/AccountDto.java:114-120 | A copy with a new balance succeeds iff the old and new balances are both non-negative, so every built account has a balance of at least 0. |
| Dto.TransactionDto.EqualsAgreesWithHashCode | src/main/java/com/codechallenge/bank/model/dto/TransactionDto.java:90-105 | Transactions with the same reference hash equally; equality looks at the reference alone. |
| Dto.TransactionDtoBuilder.constructor | src/main/java/com/codechallenge/bank/model/dto/TransactionDto.java:121-123 | A new builder holds null in every field and amount 0. |
| Dto.TransactionDtoBuilder.OfDto | src/main/java/com/codechallenge/bank/model/dto/TransactionDto.java:125-132 | The copy builder holds reference, account, date, amount, fee and description of the stored transaction. |
| Dto.TransactionDtoBuilder.OfTransaction | src/main/java/com/codechallenge/bank/model/dto/TransactionDto.java:134-141 | Copying a posted Transaction copies its scalar fields and wraps the IBAN into a new account (IBAN, "now", balance 0). |
| Dto.TransactionDtoBuilder.SetReference | src/main/java/com/codechallenge/bank/model/dto/TransactionDto.java:143-146 | Sets the reference and nothing else. |
| Dto.TransactionDtoBuilder.SetAccountIban | src/main/java/com/codechallenge/bank/model/dto/TransactionDto.java:148-151 | The account becomes a new account with that IBAN, opened "now" with balance 0. |
| Dto.TransactionDtoBuilder.SetAccount | src/main/java/com/codechallenge/bank/model/dto/TransactionDto.java:153-156 | Replaces the account and leaves every other field unchanged. |
| Dto.TransactionDtoBuilder.SetDate | src/main/java/com/codechallenge/bank/model/dto/TransactionDto.java:158-161 | Sets the date and nothing else. |
| Dto.TransactionDtoBuilder.SetAmount | src/main/java/com/codechallenge/bank/model/dto/TransactionDto.java:163-166 | Sets the amount and nothing else. |
| Dto.TransactionDtoBuilder.SetFee | src/main/java/com/codechallenge/bank/model/dto/TransactionDto.java:168-171 | Sets the fee and nothing else. |
| Dto.TransactionDtoBuilder.SetDescription | src/main/java/com/codechallenge/bank/model/dto/TransactionDto.java:173-176 | Sets the description and nothing else. |
| Dto.TransactionDtoBuilder.Build | src/main/java/com/codechallenge/bank/model/dto/TransactionDto.java:45-52 | The built transaction carries the builder's fields, and a null date is replaced by "now". |
| Dto.CopyTransactionDto | src/main/java/com/codechallenge/bank/model/dto/TransactionDto.java:125-132 | Copying a stored transaction through the builder gives back an equal value in every field. |
| TransactionStatusService.CalculateSettledStatus | src/main/java/com/codechallenge/bank/service/TransactionStatusService.java:85-89 | SETTLED is present iff the transaction's day is before today. |
| TransactionStatusService.CalculatePendingStatus | src/main/java/com/codechallenge/bank/service/TransactionStatusService.java:91-95 | PENDING is present iff the transaction's day is today. |
| TransactionStatusService.CalculatePendingStatusForAtm | src/main/java/com/codechallenge/bank/service/TransactionStatusService.java:97-101 | PENDING is present iff the day is after today and the channel is ATM. |
| TransactionStatusService.CalculateFutureStatus | src/main/java/com/codechallenge/bank/service/TransactionStatusService.java:103-107 | FUTURE is present iff the day is after today. |
| TransactionStatusService.StatusChainIsPresent | src/main/java/com/codechallenge/bank/service/TransactionStatusService.java:77-83 | The four candidates cover every ordering of the days, so the final get() never fails. |
| TransactionStatusService.CalculateStatus | src/main/java/com/codechallenge/bank/service/TransactionStatusService.java:77-83 | An earlier day gives SETTLED and the same day gives PENDING. A later day gives PENDING for ATM and FUTURE otherwise. The result is never INVALID. |
| TransactionStatusService.CalculateAmountSubtractingFee | src/main/java/com/codechallenge/bank/service/TransactionStatusService.java:152-159 | With no fee it is the raw amount. It is amount - fee for a non-negative amount and amount + fee for a negative one. When 0 <= fee <= abs(amount), the magnitude shrinks by exactly the fee and the sign is kept. |
| TransactionStatusService.CalculateAmountSubtractingFeeExample | src/main/java/com/codechallenge/bank/service/TransactionStatusService.java:152-159 | 193.38 with fee 3.18 gives 190.20, in cents; the debit -193.38 gives -190.20. |
| TransactionStatusService.CalculateClientAmount | src/main/java/com/codechallenge/bank/service/TransactionStatusService.java:128-132 | Present iff the channel is CLIENT; it is then the fee-adjusted amount. |
| TransactionStatusService.CalculateAtmAmount | src/main/java/com/codechallenge/bank/service/TransactionStatusService.java:134-138 | Present iff the channel is ATM; it is then the fee-adjusted amount. |
| TransactionStatusService.CalculateInternalAmount | src/main/java/com/codechallenge/bank/service/TransactionStatusService.java:140-144 | Present iff the channel is INTERNAL; it is then the raw amount. |
| TransactionStatusService.AmountChainCoversChannels | src/main/java/com/codechallenge/bank/service/TransactionStatusService.java:109-114 | Every non-null channel has an amount candidate, so only a null channel reaches orElseThrow. |
| TransactionStatusService.CalculateAmount | src/main/java/com/codechallenge/bank/service/TransactionStatusService.java:109-114 | Fails with BAD_REQUEST "Please provide a channel for the given reference" iff the channel is null. Otherwise CLIENT and ATM get the fee-adjusted amount and INTERNAL the raw amount. |
| TransactionStatusService.BuildTransactionStatus | src/main/java/com/codechallenge/bank/service/TransactionStatusService.java:56-69 | Fails iff the channel is null. Otherwise it gives the stored reference and the derived status. CLIENT and ATM get the fee-adjusted amount and no fee; INTERNAL gets the raw amount and the raw fee. |
| TransactionStatusService.InvalidStatus | src/main/java/com/codechallenge/bank/service/TransactionStatusService.java:34 | The unknown-reference view: the requested reference, INVALID, no amount and no fee. |
| TransactionStatusService.FindStatusFromChannel | src/main/java/com/codechallenge/bank/service/TransactionStatusService.java:31-35 | An unknown reference gives INVALID with no amount or fee, whatever the channel. A known one fails iff the channel is null, and otherwise gives its reference, a non-INVALID status and an amount. For a known reference it is exactly BuildTransactionStatus of the stored transaction and the requester's channel. |
| AccountService.FindById | src/main/java/com/codechallenge/bank/service/AccountService.java:36-38 | Finds the row iff the IBAN is stored, and it is the row stored under that IBAN. |
| AccountService.SelectedDirection | src/main/java/com/codechallenge/bank/service/AccountService.java:61-71 | "ASC" in any case selects ascending and "DESC" in any case selects descending. Any other token, null included, selects no sort. |
| AccountService.FindTransactionsById | src/main/java/com/codechallenge/bank/service/AccountService.java:55-72 | Fails with DataNotFound("transactions", iban) iff the IBAN is unknown. Otherwise the result is a permutation of the account's list: ordered by amount when a direction is selected, the list unchanged when none is. |
| AccountService.FindTransactionsByIdStable | src/main/java/com/codechallenge/bank/service/AccountService.java:62-68 | Both sorts are stable: transactions with equal amounts keep their original relative order. |
| TransactionService.CheckBalance | src/main/java/com/codechallenge/bank/service/TransactionService.java:118-132 | Unknown account: succeeds iff amount >= 0, with the amount as balance. Known account: succeeds iff balance + amount >= 0, with that sum. Any success is >= 0; a failure is BAD_REQUEST. |
| TransactionService.CalculateStatus | src/main/java/com/codechallenge/bank/service/TransactionService.java:193-204 | The if/else derivation agrees with TransactionStatusService's chain of candidates for every date, channel and day. |
| TransactionService.SortDirection | src/main/java/com/codechallenge/bank/service/TransactionService.java:62-64 | "asc" and "desc" in any case select the two directions and anything else, null included, selects none; it selects exactly as AccountService does with "ASC"/"DESC". |
| TransactionService.BuildTransactionStatusInto | src/main/java/com/codechallenge/bank/service/TransactionService.java:173-185 | Always sets reference and status. It then sets the fee-adjusted amount for CLIENT/ATM, or amount and fee for INTERNAL. For a null channel it reports BAD_REQUEST and leaves amount and fee untouched. |
| TransactionService.BuildTransactionStatus | src/main/java/com/codechallenge/bank/service/TransactionService.java:143-151 | Nothing found gives INVALID with the requested reference. In every case the answer equals TransactionStatusService's, error included. |
| TransactionService.TransactionService.constructor | src/main/java/com/codechallenge/bank/service/TransactionService.java:40-44 | Both stores start empty and consistent. |
| TransactionService.TransactionService.FindById | src/main/java/com/codechallenge/bank/service/TransactionService.java:52-54 | Finds the stored transaction iff the reference is a key of the store. |
| TransactionService.TransactionService.FindAccount | src/main/java/com/codechallenge/bank/service/TransactionService.java:75 | Finds the stored account iff the IBAN is a key of the account store. |
| TransactionService.TransactionService.CheckIsNewTransaction | src/main/java/com/codechallenge/bank/service/TransactionService.java:104-109 | Refuses iff the reference is non-empty and already stored, with the duplicate-reference message. |
| TransactionService.PostingKeepsConsistent | src/main/java/com/codechallenge/bank/service/TransactionService.java:73-86 | Storing a non-negative account under its IBAN and then a transaction that carries it under the transaction's reference keeps the stores consistent: rows under their own keys, balances at least 0, each transaction's account stored. |
| TransactionService.TransactionService.Save | src/main/java/com/codechallenge/bank/service/TransactionService.java:73-86 | Refuses a reused reference first, then a negative resulting balance, and then neither store changes. Otherwise the account is stored with the new balance (old + amount, or amount for a new account) and no other account changes. The transaction is then stored under its own or a generated reference, with the stored account and the posted fields. The stores stay consistent. |
| TransactionService.TransactionService.FindStatusFromChannel | src/main/java/com/codechallenge/bank/service/TransactionService.java:94-97 | Gives INVALID for an unknown reference and, for every requester and day, equals TransactionStatusService's answer on the same lookup. |
| TransactionService.TransactionService.FindAll | src/main/java/com/codechallenge/bank/service/TransactionService.java:56-58 | Every stored transaction appears exactly once, and nothing else appears. |
| TransactionService.TransactionService.FindByAccount | src/main/java/com/codechallenge/bank/service/TransactionService.java:63 | Exactly the stored transactions of the account, each once. |
| TransactionService.TransactionService.FindAllForAccount | src/main/java/com/codechallenge/bank/service/TransactionService.java:60-65 | Fails with DataNotFound("transactions", iban) iff the IBAN is unknown. Otherwise it gives exactly the account's transactions, each once, ordered by amount when the token selects a direction. |

## Left out

- HTTP controllers, request-body validation wiring, the JSON serializer and the JPA repository interfaces are not modelled. The repositories are replaced by the maps of the `TransactionService` class and the `AccountService.AccountTable`.
- `LocalDateTime.now()`, `new Date()` and `new Random()` are parameters. TransactionStatusService reads the clock once per candidate, so a request that straddles midnight could see two different days; the model uses one "now" per request.
- `LocalDateUtils` (time-zone conversion) is not part of this model.
- Amounts are integers in cents, not IEEE doubles, so double rounding (for example in 193.38 - 3.18) is not reproduced.
- `@Transactional` atomicity, concurrent postings and logging are not modelled; the model is single-threaded and each method runs to completion.
- Lookups with a null key (`findById(null)`), which make the JPA repository throw, are excluded by the parameter types and preconditions: `TransactionService.TransactionService.Save` requires a non-null account IBAN, `TransactionService.TransactionService.FindStatusFromChannel` a non-null reference, and `TransactionService.TransactionService.FindById`, `TransactionService.TransactionService.FindAllForAccount`, `AccountService.FindById` and `AccountService.FindTransactionsById` take the key as a non-null `string`.
- TransactionService.TransactionService.FindAll, TransactionService.TransactionService.FindByAccount and TransactionService.TransactionService.FindAllForAccount require `Valid()`, the stores' invariant. In the source, parts of it come from different places. The primary keys keep each row under its own key. The foreign key from a transaction to its account keeps that account stored. Only the guard in `AccountDto.Builder.balance` keeps balances non-negative, because `save` stores only accounts built through it.
- TransactionService.TransactionService.Save: requires `Valid()`, so a stored account with a negative balance is excluded. On such a row the source's copy builder `AccountDto.builder(account)` throws BAD_REQUEST for every posting, credits included; in the model that path cannot be reached.
- TransactionReferenceGenerator.Generate: uses the corrected letter, which assumes a non-Turkic default locale; under `tr` or `az` the source's `generate()` is `TransactionReferenceGenerator.GenerateAsWritten`, which differs for letter draw 8 (see Findings).
- TransactionService.TransactionService.Save: a generated reference comes from `TransactionReferenceGenerator.Generate`, so under a `tr` or `az` default locale the model stores a reference ending in 'I' where the source stores one ending in U+0130.
- TransactionService.TransactionService.FindAllForAccount: states sortedness, membership and absence of duplicates, but not the order among equal amounts, because a database `ORDER BY` does not promise one; the unsorted listing is in the store's unspecified order.
- A stored `TransactionDto` holds a copy of its account as it was when saved; the database holds a foreign key, so a later read would show the account's current balance. The queries compare only the IBAN.
- `AccountService.findAll` returns the whole table; it is the `AccountService.AccountTable` value itself and has no member of its own.
- `Account.Builder.transactions(null)` and the JPA no-argument constructors (which leave every field null, including dates) are not modelled; every built value has a date.
- `TransactionStatus.HashCode` and `TransactionStatusRequester.HashCode` take the enum constants' hash codes as a parameter, because `Enum.hashCode` is an identity hash chosen by the JVM.
- `BankTypes.StringHash` hashes Unicode scalar values, not UTF-16 code units, so it differs from `String.hashCode` for characters outside the Basic Multilingual Plane.
- `BankTypes.UpperCase` folds only the characters that can match an ASCII letter under `equalsIgnoreCase` (a-z, U+017F and U+0131), which is exact for the tokens "asc"/"desc" but is not the full Unicode case mapping.
- `AccountDto.Builder.transactions(...)` is kept as a builder field but, as in the source, never reaches the built account.

## Findings

| source | as written | input that shows it | evidently intended | confidence | as-written member | corrected member |
|---|---|---|---|---|---|---|
| src/main/java/com/codechallenge/bank/util/TransactionReferenceGenerator.java:33-35 | the letter is upper-cased with `toUpperCase()`, which uses the JVM's default locale | default locale `tr` (or `az`) and letter draw 8 ('i'): the suffix is U+0130 'İ', not a letter in A-Z, so the reference no longer matches the documented format 12345A | one letter in A-Z whatever the locale (`toUpperCase(Locale.ROOT)`) | not executed; follows from the Java locale rules for 'i' | TransactionReferenceGenerator.GenerateRandomCharAsWritten, TransactionReferenceGenerator.TurkicLocaleLetterOutsideAZ, TransactionReferenceGenerator.GenerateAsWrittenTurkic | TransactionReferenceGenerator.GenerateRandomChar |

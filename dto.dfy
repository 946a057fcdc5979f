/**
 * The persisted entities of the bank service (package model.dto): an
 * account row with its balance, and a transaction row that refers to its
 * account. Both are values; their builders are objects whose setters assign
 * one field, and the balance setter refuses a negative balance.
 */
module Dto {
  import opened Wrappers
  import opened BankTypes
  import Model

  const NegativeBalance: string := "The balance account could not be below 0"

  // ---------------------------------------------------------------------
  // AccountDto
  // ---------------------------------------------------------------------

  datatype AccountDto = AccountDto(iban: JString, date: DateTime, balance: Money)
  {
    /** equals: the IBAN alone decides. */
    predicate Equals(that: AccountDto) {
      iban == that.iban
    }

    /** hashCode: HashCodeBuilder(17, 37) over the IBAN. */
    function HashCode(): int {
      HashAppend(HashSeed, JStringHash(iban))
    }

    /** Equal accounts have equal hash codes, whatever their dates and balances. */
    lemma EqualsAgreesWithHashCode(that: AccountDto)
      requires Equals(that)
      ensures HashCode() == that.HashCode()
    {
    }
  }

  /** AccountDto.Builder */
  class AccountDtoBuilder {
    var iban: JString
    var date: Option<DateTime>
    var balance: Money
    /** Held by the builder but never passed on to the account it builds. */
    var transactions: seq<TransactionDto>

    /** AccountDto.builder(): no IBAN, no date, balance 0, no transactions. */
    constructor ()
      ensures iban == None && date == None && balance == 0 && transactions == []
    {
      iban, date, balance, transactions := None, None, 0, [];
    }

    method SetIban(iban: JString)
      modifies this`iban
      ensures this.iban == iban
    {
      this.iban := iban;
    }

    method SetDate(date: Option<DateTime>)
      modifies this`date
      ensures this.date == date
    {
      this.date := date;
    }

    /**
     * balance(b): assigns b, then throws BAD_REQUEST when b is negative. The
     * assignment happens before the check, so a caller that catches the
     * error is left holding a builder with the negative balance.
     */
    method SetBalance(balance: Money) returns (err: Option<Error>)
      modifies this`balance
      ensures this.balance == balance
      ensures err.Some? <==> balance < 0
      ensures err.Some? ==> err.value == BadRequest(NegativeBalance)
    {
      this.balance := balance;
      if balance < 0 {
        return Some(BadRequest(NegativeBalance));
      }
      return None;
    }

    method SetTransactions(transactions: seq<TransactionDto>)
      modifies this`transactions
      ensures this.transactions == transactions
    {
      this.transactions := transactions;
    }

    /** build(): IBAN and balance as set, a null date replaced by "now". */
    method Build(now: DateTime) returns (a: AccountDto)
      ensures a.iban == iban && a.balance == balance
      ensures a.date == DateOrNow(date, now)
    {
      a := AccountDto(iban, DateOrNow(date, now), balance);
    }
  }

  /** AccountDto.builder(iban): a builder with only the IBAN set. */
  method AccountDtoBuilderForIban(iban: JString) returns (b: AccountDtoBuilder)
    ensures fresh(b)
    ensures b.iban == iban && b.date == None && b.balance == 0 && b.transactions == []
  {
    b := new AccountDtoBuilder();
    b.SetIban(iban);
  }

  /**
   * AccountDto.builder(account): a builder holding the account's IBAN, date
   * and balance. It goes through the balance setter, so an account whose
   * balance is negative cannot be copied.
   */
  method AccountDtoBuilderOf(account: AccountDto) returns (r: Result<AccountDtoBuilder, Error>)
    ensures r.Success? <==> account.balance >= 0
    ensures r.Failure? ==> r.error == BadRequest(NegativeBalance)
    ensures r.Success? ==> fresh(r.value)
    ensures r.Success? ==> r.value.iban == account.iban && r.value.date == Some(account.date)
    ensures r.Success? ==> r.value.balance == account.balance && r.value.transactions == []
  {
    var b := new AccountDtoBuilder();
    b.SetIban(account.iban);
    b.SetDate(Some(account.date));
    var err := b.SetBalance(account.balance);
    if err.Some? {
      return Failure(err.value);
    }
    return Success(b);
  }

  /** AccountDto.builder(iban).build(): a new account opened "now" with balance 0. */
  method NewAccountDto(iban: JString, now: DateTime) returns (a: AccountDto)
    ensures a == AccountDto(iban, now, 0)
  {
    var b := AccountDtoBuilderForIban(iban);
    a := b.Build(now);
  }

  /** AccountDto.builder(account).build(): the same account, unless its balance is negative. */
  method CopyAccountDto(account: AccountDto, now: DateTime) returns (r: Result<AccountDto, Error>)
    ensures account.balance >= 0 ==> r == Success(account)
    ensures account.balance < 0 ==> r == Failure(BadRequest(NegativeBalance))
  {
    var b := AccountDtoBuilderOf(account);
    if b.Failure? {
      return Failure(b.error);
    }
    var copy := b.value.Build(now);
    return Success(copy);
  }

  /**
   * AccountDto.builder(account).balance(balance).build(): the account with a
   * new balance; it fails when either the old or the new balance is negative.
   */
  method WithBalance(account: AccountDto, balance: Money, now: DateTime) returns (r: Result<AccountDto, Error>)
    ensures r.Success? <==> account.balance >= 0 && balance >= 0
    ensures r.Failure? ==> r.error == BadRequest(NegativeBalance)
    ensures r.Success? ==> r.value == account.(balance := balance)
  {
    var b := AccountDtoBuilderOf(account);
    if b.Failure? {
      return Failure(b.error);
    }
    var err := b.value.SetBalance(balance);
    if err.Some? {
      return Failure(err.value);
    }
    var updated := b.value.Build(now);
    return Success(updated);
  }

  // ---------------------------------------------------------------------
  // TransactionDto
  // ---------------------------------------------------------------------

  /** A stored transaction; its account may be null when it was built without one. */
  datatype TransactionDto = TransactionDto(
    reference: JString,
    account: Option<AccountDto>,
    date: DateTime,
    amount: Money,
    fee: Option<Money>,
    description: JString)
  {
    /** equals: the reference alone decides. */
    predicate Equals(that: TransactionDto) {
      reference == that.reference
    }

    /** hashCode: HashCodeBuilder(17, 37) over the reference. */
    function HashCode(): int {
      HashAppend(HashSeed, JStringHash(reference))
    }

    /** Equal transactions have equal hash codes, whatever their other fields hold. */
    lemma EqualsAgreesWithHashCode(that: TransactionDto)
      requires Equals(that)
      ensures HashCode() == that.HashCode()
    {
    }
  }

  /** TransactionDto.Builder */
  class TransactionDtoBuilder {
    var reference: JString
    var account: Option<AccountDto>
    var date: Option<DateTime>
    var amount: Money
    var fee: Option<Money>
    var description: JString

    /** TransactionDto.builder(): every field null, the amount 0. */
    constructor ()
      ensures reference == None && account == None && date == None
      ensures amount == 0 && fee == None && description == None
    {
      reference, account, date := None, None, None;
      amount, fee, description := 0, None, None;
    }

    /** TransactionDto.builder(transaction): a builder holding the six fields of the stored transaction. */
    constructor OfDto(t: TransactionDto)
      ensures reference == t.reference && account == t.account && date == Some(t.date)
      ensures amount == t.amount && fee == t.fee && description == t.description
    {
      reference, account, date := t.reference, t.account, Some(t.date);
      amount, fee, description := t.amount, t.fee, t.description;
    }

    /**
     * TransactionDto.builder(transaction) for a posted Transaction: the
     * scalar fields are copied and the IBAN string becomes a new AccountDto
     * with that IBAN, opened "now" with balance 0.
     */
    constructor OfTransaction(t: Model.Transaction, now: DateTime)
      ensures reference == t.reference && account == Some(AccountDto(t.account, now, 0))
      ensures date == t.date && amount == t.amount && fee == t.fee && description == t.description
    {
      var b := AccountDtoBuilderForIban(t.account);
      var owner := b.Build(now);
      reference, account, date := t.reference, Some(owner), t.date;
      amount, fee, description := t.amount, t.fee, t.description;
    }

    method SetReference(reference: JString)
      modifies this`reference
      ensures this.reference == reference
    {
      this.reference := reference;
    }

    /** account(String): a new account with that IBAN, opened "now" with balance 0. */
    method SetAccountIban(accountIban: JString, now: DateTime)
      modifies this`account
      ensures account == Some(AccountDto(accountIban, now, 0))
    {
      var owner := NewAccountDto(accountIban, now);
      account := Some(owner);
    }

    /** account(AccountDto): replaces the account. */
    method SetAccount(account: Option<AccountDto>)
      modifies this`account
      ensures this.account == account
    {
      this.account := account;
    }

    method SetDate(date: Option<DateTime>)
      modifies this`date
      ensures this.date == date
    {
      this.date := date;
    }

    method SetAmount(amount: Money)
      modifies this`amount
      ensures this.amount == amount
    {
      this.amount := amount;
    }

    method SetFee(fee: Option<Money>)
      modifies this`fee
      ensures this.fee == fee
    {
      this.fee := fee;
    }

    method SetDescription(description: JString)
      modifies this`description
      ensures this.description == description
    {
      this.description := description;
    }

    /** build(): the fields as set, with a null date replaced by "now". */
    method Build(now: DateTime) returns (t: TransactionDto)
      ensures t.reference == reference && t.account == account
      ensures t.date == DateOrNow(date, now)
      ensures t.amount == amount && t.fee == fee && t.description == description
    {
      t := TransactionDto(reference, account, DateOrNow(date, now), amount, fee, description);
    }
  }

  /** TransactionDto.builder(t).build(): the copy equals t in every field. */
  method CopyTransactionDto(t: TransactionDto, now: DateTime) returns (copy: TransactionDto)
    ensures copy == t
  {
    var b := new TransactionDtoBuilder.OfDto(t);
    copy := b.Build(now);
  }
}

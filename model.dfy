/**
 * The request-side entities of the bank service (package model): the
 * Transaction a caller posts, the older Account that embeds its
 * transactions, and the status request and its answer. Each entity is an
 * immutable value; each of their builders is an object whose setters assign
 * one field.
 */
module Model {
  import opened Wrappers
  import opened BankTypes
  import opened StringBuilderUtils

  const IbanRequired: string := "the IBAN number of the account is required"
  const FeeNotNegative: string := "the fee cannot be less than zero"
  const ReferenceRequired: string := "the reference is required"
  const StatusRequired: string := "the status is required"

  /** The Error a validate() method throws for the accumulated text, if any text accumulated. */
  function ValidationOutcome(text: string): Outcome<Error> {
    if |text| > 0 then Fail(IllegalState(text)) else Pass
  }

  // ---------------------------------------------------------------------
  // Transaction
  // ---------------------------------------------------------------------

  /**
   * A posted transaction. `date` may be null because a transaction read from
   * a request body does not go through the builder.
   */
  datatype Transaction = Transaction(
    reference: JString,
    account: JString,
    date: Option<DateTime>,
    amount: Money,
    fee: Option<Money>,
    description: JString)
  {
    /** equals: the reference alone decides. */
    predicate Equals(that: Transaction) {
      reference == that.reference
    }

    /** hashCode: HashCodeBuilder(17, 37) over the reference. */
    function HashCode(): int {
      HashAppend(HashSeed, JStringHash(reference))
    }

    /** Equal transactions have equal hash codes, whatever their other fields hold. */
    lemma EqualsAgreesWithHashCode(that: Transaction)
      requires Equals(that)
      ensures HashCode() == that.HashCode()
    {
    }

    /** The field constraints the class declares: a non-empty account IBAN and a fee that is not negative. */
    predicate SatisfiesDeclaredConstraints() {
      !IsEmpty(account) && (fee.Some? ==> fee.value >= 0)
    }

    /** The messages of the declared constraints this transaction breaks. */
    function ConstraintViolations(): (r: set<string>)
      ensures r == {} <==> SatisfiesDeclaredConstraints()
      ensures IbanRequired in r <==> IsEmpty(account)
      ensures FeeNotNegative in r <==> fee.Some? && fee.value < 0
    {
      (if IsEmpty(account) then {IbanRequired} else {})
      + (if fee.Some? && fee.value < 0 then {FeeNotNegative} else {})
    }
  }

  /** Transaction.Builder */
  class TransactionBuilder {
    var reference: JString
    var account: JString
    var date: Option<DateTime>
    var amount: Money
    var fee: Option<Money>
    var description: JString

    /** Transaction.builder(): every field null, the amount 0. */
    constructor ()
      ensures reference == None && account == None && date == None
      ensures amount == 0 && fee == None && description == None
    {
      reference, account, date := None, None, None;
      amount, fee, description := 0, None, None;
    }

    /** Transaction.builder(transaction): a builder holding the six fields of the transaction. */
    constructor Of(t: Transaction)
      ensures reference == t.reference && account == t.account && date == t.date
      ensures amount == t.amount && fee == t.fee && description == t.description
    {
      reference, account, date := t.reference, t.account, t.date;
      amount, fee, description := t.amount, t.fee, t.description;
    }

    method SetReference(reference: JString)
      modifies this`reference
      ensures this.reference == reference
    {
      this.reference := reference;
    }

    method SetAccount(accountIban: JString)
      modifies this`account
      ensures this.account == accountIban
    {
      this.account := accountIban;
    }

    method SetDate(date: Option<DateTime>)
      modifies this`date
      ensures this.date == date
    {
      this.date := date;
    }

    method SetAmount(amount: Money)
      modifies this`amount
      ensures this.amount == amount
    {
      this.amount := amount;
    }

    method SetFee(fee: Option<Money>)
      modifies this`fee
      ensures this.fee == fee
    {
      this.fee := fee;
    }

    method SetDescription(description: JString)
      modifies this`description
      ensures this.description == description
    {
      this.description := description;
    }

    /** build(): the fields as set, with a null date replaced by "now". */
    method Build(now: DateTime) returns (t: Transaction)
      ensures t.reference == reference && t.account == account
      ensures t.date == Some(DateOrNow(date, now))
      ensures t.amount == amount && t.fee == fee && t.description == description
    {
      t := Transaction(reference, account, Some(DateOrNow(date, now)), amount, fee, description);
    }
  }

  /** Transaction.builder(t).build(): a copy that keeps every field and only fills in a missing date. */
  method CopyTransaction(t: Transaction, now: DateTime) returns (copy: Transaction)
    ensures copy == t.(date := Some(DateOrNow(t.date, now)))
    ensures t.date.Some? ==> copy == t
  {
    var builder := new TransactionBuilder.Of(t);
    copy := builder.Build(now);
  }

  // ---------------------------------------------------------------------
  // Account (the version that embeds its transactions)
  // ---------------------------------------------------------------------

  datatype Account = Account(iban: JString, date: DateTime, transactions: seq<Transaction>)
  {
    /** validate(): throws IllegalStateException when the IBAN is empty. */
    method Validate() returns (r: Outcome<Error>)
      ensures r.Fail? <==> IsEmpty(iban)
      ensures r.Fail? ==> r.error == IllegalState("the IBAN number of the account is required")
    {
      var builder := new StringBuilder();
      if IsEmpty(iban) {
        Append(builder, Some(IbanRequired));
      }
      r := ValidationOutcome(builder.content);
    }

    /** equals: the IBAN alone decides. */
    predicate Equals(that: Account) {
      iban == that.iban
    }

    /** hashCode: HashCodeBuilder(17, 37) over the IBAN. */
    function HashCode(): int {
      HashAppend(HashSeed, JStringHash(iban))
    }

    /** Equal accounts have equal hash codes, whatever their dates and transactions. */
    lemma EqualsAgreesWithHashCode(that: Account)
      requires Equals(that)
      ensures HashCode() == that.HashCode()
    {
    }
  }

  /** Account.Builder */
  class AccountBuilder {
    var iban: JString
    var date: Option<DateTime>
    var transactions: seq<Transaction>

    /** Account.builder(): no IBAN, no date, an empty list of transactions. */
    constructor ()
      ensures iban == None && date == None && transactions == []
    {
      iban, date, transactions := None, None, [];
    }

    method SetIban(iban: JString)
      modifies this`iban
      ensures this.iban == iban
    {
      this.iban := iban;
    }

    method SetDate(date: Option<DateTime>)
      modifies this`date
      ensures this.date == date
    {
      this.date := date;
    }

    method SetTransactions(transactions: seq<Transaction>)
      modifies this`transactions
      ensures this.transactions == transactions
    {
      this.transactions := transactions;
    }

    /** build(): the fields as set, with a null date replaced by "now". */
    method Build(now: DateTime) returns (a: Account)
      ensures a.iban == iban && a.transactions == transactions
      ensures a.date == DateOrNow(date, now)
    {
      a := Account(iban, DateOrNow(date, now), transactions);
    }
  }

  /** Account.builder().iban(iban).build(): the account has no transactions and opened "now". */
  method NewAccount(iban: JString, now: DateTime) returns (a: Account)
    ensures a.iban == iban && a.date == now && a.transactions == []
  {
    var builder := new AccountBuilder();
    builder.SetIban(iban);
    a := builder.Build(now);
  }

  // ---------------------------------------------------------------------
  // TransactionStatus
  // ---------------------------------------------------------------------

  /** The answer to a status request; fields that were never set stay null. */
  datatype TransactionStatus = TransactionStatus(
    reference: JString,
    status: Option<Status>,
    amount: Option<Money>,
    fee: Option<Money>)
  {
    /** The messages validate() accumulates, in order. */
    function MissingFields(): seq<string> {
      (if IsEmpty(reference) then [ReferenceRequired] else [])
      + (if status.None? then [StatusRequired] else [])
    }

    /** validate(): throws when the reference is empty or the status is null, naming every missing field. */
    method Validate() returns (r: Outcome<Error>)
      ensures r.Fail? <==> IsEmpty(reference) || status.None?
      ensures r.Fail? ==> r.error == IllegalState(Join(MissingFields()))
    {
      var builder := new StringBuilder();
      ghost var appended: seq<string> := [];
      if IsEmpty(reference) {
        AppendAllStep("", appended, ReferenceRequired);
        Append(builder, Some(ReferenceRequired));
        appended := appended + [ReferenceRequired];
      }
      assert builder.content == AppendAll("", appended);
      if status.None? {
        AppendAllStep("", appended, StatusRequired);
        Append(builder, Some(StatusRequired));
        appended := appended + [StatusRequired];
      }
      assert appended == MissingFields();
      MissingFieldsText();
      r := ValidationOutcome(builder.content);
    }

    /** The accumulated text is the missing fields joined, and it is empty iff no field is missing. */
    lemma MissingFieldsText()
      ensures AppendAll("", MissingFields()) == Join(MissingFields())
      ensures |Join(MissingFields())| > 0 <==> IsEmpty(reference) || status.None?
    {
      var fields := MissingFields();
      assert forall i :: 0 <= i < |fields| ==> |fields[i]| > 0;
      AppendAllIsJoin(fields);
      if |fields| > 0 {
        JoinNonEmpty(fields);
      }
    }

    /** With both fields missing, the message names the reference first and the status second. */
    lemma BothFieldsMissing()
      requires IsEmpty(reference) && status.None?
      ensures Join(MissingFields()) == ReferenceRequired + ", " + StatusRequired
    {
      assert MissingFields()[..1] == [ReferenceRequired];
    }

    /** equals: reference and status decide; amount and fee are ignored. */
    predicate Equals(that: TransactionStatus) {
      reference == that.reference && status == that.status
    }

    /**
     * hashCode: HashCodeBuilder(17, 37) over reference and status. An enum
     * constant hashes by identity, which the JVM chooses: `statusHash` stands for it.
     */
    function HashCode(statusHash: Status -> int): int {
      var statusField := match status case None => None case Some(s) => Some(statusHash(s));
      HashAppend(HashAppend(HashSeed, JStringHash(reference)), statusField)
    }

    /** Equal statuses have equal hash codes, whatever their amounts and fees. */
    lemma EqualsAgreesWithHashCode(that: TransactionStatus, statusHash: Status -> int)
      requires Equals(that)
      ensures HashCode(statusHash) == that.HashCode(statusHash)
    {
    }
  }

  /** TransactionStatus.Builder */
  class TransactionStatusBuilder {
    var reference: JString
    var status: Option<Status>
    var amount: Option<Money>
    var fee: Option<Money>

    /** TransactionStatus.builder(): every field null. */
    constructor ()
      ensures reference == None && status == None && amount == None && fee == None
    {
      reference, status, amount, fee := None, None, None, None;
    }

    method SetReference(reference: JString)
      modifies this`reference
      ensures this.reference == reference
    {
      this.reference := reference;
    }

    method SetStatus(status: Option<Status>)
      modifies this`status
      ensures this.status == status
    {
      this.status := status;
    }

    method SetAmount(amount: Option<Money>)
      modifies this`amount
      ensures this.amount == amount
    {
      this.amount := amount;
    }

    method SetFee(fee: Option<Money>)
      modifies this`fee
      ensures this.fee == fee
    {
      this.fee := fee;
    }

    /** build(): exactly the fields as set; nothing is defaulted. */
    method Build() returns (s: TransactionStatus)
      ensures s.reference == reference && s.status == status
      ensures s.amount == amount && s.fee == fee
    {
      s := TransactionStatus(reference, status, amount, fee);
    }
  }

  // ---------------------------------------------------------------------
  // TransactionStatusRequester
  // ---------------------------------------------------------------------

  /** A status request: the reference asked about and the asking channel (which may be null). */
  datatype TransactionStatusRequester = TransactionStatusRequester(reference: JString, channel: Option<Channel>)
  {
    /** validate(): throws when the reference is empty; a null channel is accepted. */
    method Validate() returns (r: Outcome<Error>)
      ensures r.Fail? <==> IsEmpty(reference)
      ensures r.Fail? ==> r.error == IllegalState("the reference is required")
    {
      var builder := new StringBuilder();
      if IsEmpty(reference) {
        Append(builder, Some(ReferenceRequired));
      }
      r := ValidationOutcome(builder.content);
    }

    /** equals: reference and channel decide. */
    predicate Equals(that: TransactionStatusRequester) {
      reference == that.reference && channel == that.channel
    }

    /** hashCode: HashCodeBuilder(17, 37) over reference and channel; `channelHash` stands for the enum's identity hash. */
    function HashCode(channelHash: Channel -> int): int {
      var channelField := match channel case None => None case Some(c) => Some(channelHash(c));
      HashAppend(HashAppend(HashSeed, JStringHash(reference)), channelField)
    }

    /** Equal requests have equal hash codes. */
    lemma EqualsAgreesWithHashCode(that: TransactionStatusRequester, channelHash: Channel -> int)
      requires Equals(that)
      ensures HashCode(channelHash) == that.HashCode(channelHash)
    {
    }
  }

  /** TransactionStatusRequester.Builder */
  class TransactionStatusRequesterBuilder {
    var reference: JString
    var channel: Option<Channel>

    constructor ()
      ensures reference == None && channel == None
    {
      reference, channel := None, None;
    }

    method SetReference(reference: JString)
      modifies this`reference
      ensures this.reference == reference
    {
      this.reference := reference;
    }

    method SetChannel(channel: Option<Channel>)
      modifies this`channel
      ensures this.channel == channel
    {
      this.channel := channel;
    }

    method Build() returns (r: TransactionStatusRequester)
      ensures r.reference == reference && r.channel == channel
    {
      r := TransactionStatusRequester(reference, channel);
    }
  }
}

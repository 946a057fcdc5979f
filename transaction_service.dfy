/**
 * TransactionService: posting a transaction against two keyed stores (the
 * accounts by IBAN, the transactions by reference), answering status
 * requests, and listing transactions. The stores are the fields of the
 * service object; the clock and the random draws of the reference
 * generator are parameters.
 */
module TransactionService {
  import opened Wrappers
  import opened BankTypes
  import opened Model
  import opened Dto
  import opened Sorting
  import ReferenceGenerator = TransactionReferenceGenerator
  import StatusService = TransactionStatusService
  import AccountService

  const NegativeBalanceAfterPosting: string := "The transaction cannot be saved, the balance account could not be below 0"

  /** The message refusing a reference that is already stored. */
  function DuplicateReference(reference: string): string {
    "The transaction cannot be saved, the reference " + reference + " was already used in other transaction"
  }

  /**
   * checkBalance: the balance after posting `amount`, which may not be
   * negative. An unknown account starts from nothing.
   */
  function CheckBalance(account: Option<AccountDto>, amount: Money): (r: Result<Money, Error>)
    ensures account.None? ==> (r.Success? <==> amount >= 0)
    ensures account.None? && r.Success? ==> r.value == amount
    ensures account.Some? ==> (r.Success? <==> account.value.balance + amount >= 0)
    ensures account.Some? && r.Success? ==> r.value == account.value.balance + amount
    ensures r.Success? ==> r.value >= 0
    ensures r.Failure? ==> r.error == BadRequest(NegativeBalanceAfterPosting)
  {
    if account.None? then
      if amount < 0 then Failure(BadRequest(NegativeBalanceAfterPosting)) else Success(amount)
    else
      var balance := account.value.balance + amount;
      if balance < 0 then Failure(BadRequest(NegativeBalanceAfterPosting)) else Success(balance)
  }

  /**
   * calculateStatus, written as one if/else chain; it derives the same
   * status as the chain of optional candidates in TransactionStatusService.
   */
  function CalculateStatus(transactionDate: DateTime, channel: Option<Channel>, now: DateTime): (r: Status)
    ensures r == StatusService.CalculateStatus(transactionDate, channel, now)
  {
    if ToLocalDate(transactionDate) < ToLocalDate(now) then SETTLED
    else if ToLocalDate(transactionDate) == ToLocalDate(now)
         || (ToLocalDate(transactionDate) > ToLocalDate(now) && channel == Some(ATM)) then PENDING
    else FUTURE
  }

  /** The order a sort token asks for: "asc" or "desc" in any case; anything else, null included, asks for none. */
  function SortDirection(sortType: JString): (r: Option<Direction>)
    ensures r == Some(ASC) <==> EqualsIgnoreCase("asc", sortType)
    ensures r == Some(DESC) <==> EqualsIgnoreCase("desc", sortType)
    ensures r == AccountService.SelectedDirection(sortType)
  {
    EqualsIgnoreCaseSpelling("asc", "ASC", sortType);
    EqualsIgnoreCaseSpelling("desc", "DESC", sortType);
    if sortType.None? || !(EqualsIgnoreCase("asc", sortType) || EqualsIgnoreCase("desc", sortType)) then None
    else if EqualsIgnoreCase("asc", sortType) then Some(ASC)
    else Some(DESC)
  }

  /** The sort key of stored transactions: the amount. */
  function Amount(t: TransactionDto): int {
    t.amount
  }

  /** The stored transaction belongs to the account with this IBAN. */
  predicate OwnedBy(t: TransactionDto, iban: string) {
    t.account.Some? && t.account.value.iban == Some(iban)
  }

  /** No element occurs twice. */
  predicate NoDuplicates<T(==)>(s: seq<T>) {
    forall i, j :: 0 <= i < j < |s| ==> s[i] != s[j]
  }

  /**
   * buildTransactionStatus(builder, transaction, channel): sets reference and
   * status, then the amount for CLIENT and ATM, or amount and fee for
   * INTERNAL; for a null channel it throws BAD_REQUEST after reference and
   * status are set.
   */
  method BuildTransactionStatusInto(builder: TransactionStatusBuilder, transaction: TransactionDto,
                                    channel: Option<Channel>, now: DateTime) returns (err: Option<Error>)
    modifies builder
    ensures builder.reference == transaction.reference
    ensures builder.status == Some(CalculateStatus(transaction.date, channel, now))
    ensures channel == Some(CLIENT) || channel == Some(ATM)
        ==> err.None? && builder.fee == old(builder.fee)
    ensures channel == Some(CLIENT) || channel == Some(ATM)
        ==> builder.amount == Some(StatusService.CalculateAmountSubtractingFee(transaction.amount, transaction.fee))
    ensures channel == Some(INTERNAL)
        ==> err.None? && builder.amount == Some(transaction.amount) && builder.fee == transaction.fee
    ensures channel.None? ==> err == Some(BadRequest(StatusService.MissingChannel))
    ensures channel.None? ==> builder.amount == old(builder.amount) && builder.fee == old(builder.fee)
  {
    var status := CalculateStatus(transaction.date, channel, now);
    builder.SetReference(transaction.reference);
    builder.SetStatus(Some(status));
    if channel == Some(CLIENT) || channel == Some(ATM) {
      builder.SetAmount(Some(StatusService.CalculateAmountSubtractingFee(transaction.amount, transaction.fee)));
      err := None;
    } else if channel == Some(INTERNAL) {
      builder.SetAmount(Some(transaction.amount));
      builder.SetFee(transaction.fee);
      err := None;
    } else {
      err := Some(BadRequest(StatusService.MissingChannel));
    }
  }

  /**
   * buildTransactionStatus(transaction, requester): INVALID with the
   * requested reference when nothing was found, otherwise the stored
   * transaction's view. It answers exactly as TransactionStatusService does.
   */
  method BuildTransactionStatus(transaction: Option<TransactionDto>, requester: TransactionStatusRequester, now: DateTime)
    returns (r: Result<TransactionStatus, Error>)
    ensures transaction.None? ==> r == Success(TransactionStatus(requester.reference, Some(INVALID), None, None))
    ensures r == StatusService.FindStatusFromChannel(transaction, requester, now)
  {
    var builder := new TransactionStatusBuilder();
    if transaction.None? {
      builder.SetReference(requester.reference);
      builder.SetStatus(Some(INVALID));
    } else {
      var err := BuildTransactionStatusInto(builder, transaction.value, requester.channel, now);
      if err.Some? {
        return Failure(err.value);
      }
    }
    var status := builder.Build();
    return Success(status);
  }

  /**
   * The stores are consistent: every row is stored under its own key, no
   * account balance is negative, and every stored transaction belongs to a
   * stored account.
   */
  ghost predicate Consistent(accounts: map<string, AccountDto>, transactions: map<string, TransactionDto>) {
    (forall iban :: iban in accounts ==> accounts[iban].iban == Some(iban) && accounts[iban].balance >= 0)
    && (forall reference :: reference in transactions ==>
          transactions[reference].reference == Some(reference)
          && transactions[reference].account.Some?
          && transactions[reference].account.value.iban.Some?
          && transactions[reference].account.value.iban.value in accounts)
  }

  /** Storing an account under its own IBAN and then a transaction of it under its own reference keeps the stores consistent. */
  lemma PostingKeepsConsistent(
    accounts: map<string, AccountDto>, transactions: map<string, TransactionDto>,
    account: AccountDto, saved: TransactionDto)
    requires Consistent(accounts, transactions)
    requires account.iban.Some? && account.balance >= 0
    requires saved.reference.Some? && saved.account == Some(account)
    ensures Consistent(accounts[account.iban.value := account], transactions[saved.reference.value := saved])
  {
  }

  class TransactionService {
    /** The account store (accountService), keyed by IBAN. */
    var accounts: map<string, AccountDto>
    /** The transaction store (the DAO), keyed by reference. */
    var transactions: map<string, TransactionDto>

    ghost predicate Valid()
      reads this
    {
      Consistent(accounts, transactions)
    }

    /** Both stores start empty. */
    constructor ()
      ensures accounts == map[] && transactions == map[]
      ensures Valid()
    {
      accounts := map[];
      transactions := map[];
    }

    /** findById: the transaction stored under the reference, if any. */
    function FindById(reference: string): (r: Option<TransactionDto>)
      reads this
      ensures r.Some? <==> reference in transactions
      ensures r.Some? ==> r.value == transactions[reference]
    {
      if reference in transactions then Some(transactions[reference]) else None
    }

    /** accountService.findById: the account stored under the IBAN, if any. */
    function FindAccount(iban: string): (r: Option<AccountDto>)
      reads this
      ensures r.Some? <==> iban in accounts
      ensures r.Some? ==> r.value == accounts[iban]
    {
      if iban in accounts then Some(accounts[iban]) else None
    }

    /** checkIsNewTransaction: a non-empty reference that is already stored is refused. */
    method CheckIsNewTransaction(reference: JString) returns (err: Option<Error>)
      ensures err.Some? <==> !IsEmpty(reference) && reference.value in transactions
      ensures err.Some? ==> err.value == BadRequest(DuplicateReference(reference.value))
    {
      if !IsEmpty(reference) && FindById(reference.value).Some? {
        return Some(BadRequest(DuplicateReference(reference.value)));
      }
      return None;
    }

    /**
     * save: refuses a reused reference and a posting that would leave the
     * balance negative, and otherwise stores the account with its new
     * balance and then the transaction, under its own reference or a
     * generated one. The draws stand for the generator's two calls to
     * Random.nextInt.
     */
    method Save(transaction: Transaction, now: DateTime, intDraw: int, charDraw: int)
      returns (r: Result<TransactionDto, Error>)
      requires Valid()
      requires transaction.account.Some?
      requires 0 <= intDraw < ReferenceGenerator.IntBound && 0 <= charDraw < ReferenceGenerator.LetterCount
      modifies this
      ensures Valid()
      // a reused reference is refused first
      ensures !IsEmpty(transaction.reference) && transaction.reference.value in old(transactions)
          ==> r == Failure(BadRequest(DuplicateReference(transaction.reference.value)))
      // then a posting that would leave the balance negative
      ensures (IsEmpty(transaction.reference) || transaction.reference.value !in old(transactions))
              && CheckBalance(old(FindAccount(transaction.account.value)), transaction.amount).Failure?
          ==> r == Failure(BadRequest(NegativeBalanceAfterPosting))
      // a refused posting changes nothing
      ensures r.Failure? ==> accounts == old(accounts) && transactions == old(transactions)
      // a posting that is not refused succeeds
      ensures (IsEmpty(transaction.reference) || transaction.reference.value !in old(transactions))
              && CheckBalance(old(FindAccount(transaction.account.value)), transaction.amount).Success?
          ==> r.Success?
      // the account is stored with the new balance; no other account changes
      ensures r.Success? ==>
        var iban := transaction.account.value;
        var balance := CheckBalance(old(FindAccount(iban)), transaction.amount).value;
        var openedOn := if iban in old(accounts) then old(accounts)[iban].date else now;
        accounts == old(accounts)[iban := AccountDto(Some(iban), openedOn, balance)]
      ensures r.Success? && transaction.account.value in old(accounts) ==>
        accounts[transaction.account.value].balance == old(accounts)[transaction.account.value].balance + transaction.amount
      ensures r.Success? && transaction.account.value !in old(accounts) ==>
        accounts[transaction.account.value].balance == transaction.amount
      // the transaction keeps a non-empty reference or gets a generated one
      ensures r.Success? ==> r.value.reference == Some(
        if IsEmpty(transaction.reference) then ReferenceGenerator.Generate(intDraw, charDraw)
        else transaction.reference.value)
      // it is stored under that reference, with the stored account and the posted fields
      ensures r.Success? ==> transactions == old(transactions)[r.value.reference.value := r.value]
      ensures r.Success? ==> r.value.account == Some(accounts[transaction.account.value])
      ensures r.Success? ==> r.value.date == DateOrNow(transaction.date, now)
      ensures r.Success? ==> r.value.amount == transaction.amount && r.value.fee == transaction.fee
      ensures r.Success? ==> r.value.description == transaction.description
    {
      var err := CheckIsNewTransaction(transaction.reference);
      if err.Some? {
        return Failure(err.value);
      }
      var iban := transaction.account.value;
      var account := FindAccount(iban);
      var balance := CheckBalance(account, transaction.amount);
      if balance.Failure? {
        return Failure(balance.error);
      }
      var newAccount := NewAccountDto(Some(iban), now);
      var accountDto := account.GetOr(newAccount);
      var updated := WithBalance(accountDto, balance.value, now);
      if updated.Failure? {
        assert false;
      }
      accounts := accounts[iban := updated.value];
      var reference := if IsEmpty(transaction.reference) then ReferenceGenerator.Generate(intDraw, charDraw)
                       else transaction.reference.value;
      var builder := new TransactionDtoBuilder.OfTransaction(transaction, now);
      builder.SetReference(Some(reference));
      builder.SetAccount(Some(updated.value));
      var saved := builder.Build(now);
      PostingKeepsConsistent(old(accounts), old(transactions), updated.value, saved);
      transactions := transactions[reference := saved];
      return Success(saved);
    }

    /** findStatusFromChannel: the status view of the requested reference, as TransactionStatusService gives it. */
    method FindStatusFromChannel(requester: TransactionStatusRequester, now: DateTime)
      returns (r: Result<TransactionStatus, Error>)
      requires requester.reference.Some?
      ensures requester.reference.value !in transactions
          ==> r == Success(TransactionStatus(requester.reference, Some(INVALID), None, None))
      ensures r == StatusService.FindStatusFromChannel(FindById(requester.reference.value), requester, now)
    {
      var found := FindById(requester.reference.value);
      r := BuildTransactionStatus(found, requester, now);
    }

    /** findAll: every stored transaction, once each, in the store's own order. */
    method FindAll() returns (list: seq<TransactionDto>)
      requires Valid()
      ensures forall i :: 0 <= i < |list| ==>
        list[i].reference.Some? && list[i].reference.value in transactions
        && transactions[list[i].reference.value] == list[i]
      ensures forall reference :: reference in transactions ==> transactions[reference] in list
      ensures NoDuplicates(list)
    {
      list := [];
      var remaining := transactions.Keys;
      while remaining != {}
        invariant remaining <= transactions.Keys
        invariant forall i :: 0 <= i < |list| ==>
          list[i].reference.Some? && list[i].reference.value in transactions - remaining
          && transactions[list[i].reference.value] == list[i]
        invariant forall reference :: reference in transactions - remaining ==> transactions[reference] in list
        invariant NoDuplicates(list)
        decreases remaining
      {
        var reference :| reference in remaining;
        list := list + [transactions[reference]];
        remaining := remaining - {reference};
      }
    }

    /** findByAccount: the stored transactions of the account, once each, in the store's own order. */
    method FindByAccount(iban: string) returns (list: seq<TransactionDto>)
      requires Valid()
      ensures forall i :: 0 <= i < |list| ==>
        OwnedBy(list[i], iban) && list[i].reference.Some? && list[i].reference.value in transactions
        && transactions[list[i].reference.value] == list[i]
      ensures forall reference ::
        reference in transactions && OwnedBy(transactions[reference], iban) ==> transactions[reference] in list
      ensures NoDuplicates(list)
    {
      list := [];
      var remaining := transactions.Keys;
      while remaining != {}
        invariant remaining <= transactions.Keys
        invariant forall i :: 0 <= i < |list| ==>
          OwnedBy(list[i], iban) && list[i].reference.Some? && list[i].reference.value in transactions - remaining
          && transactions[list[i].reference.value] == list[i]
        invariant forall reference ::
          reference in transactions - remaining && OwnedBy(transactions[reference], iban) ==> transactions[reference] in list
        invariant NoDuplicates(list)
        decreases remaining
      {
        var reference :| reference in remaining;
        if OwnedBy(transactions[reference], iban) {
          list := list + [transactions[reference]];
        }
        remaining := remaining - {reference};
      }
    }

    /**
     * findAll(iban, sortType): DataNotFound for an unknown IBAN; otherwise
     * the account's transactions, sorted by amount when the token is "asc"
     * or "desc" in any case.
     */
    method FindAllForAccount(iban: string, sortType: JString) returns (r: Result<seq<TransactionDto>, Error>)
      requires Valid()
      ensures r.Failure? <==> iban !in accounts
      ensures r.Failure? ==> r.error == DataNotFound("transactions", iban)
      ensures r.Success? ==> forall i :: 0 <= i < |r.value| ==>
        OwnedBy(r.value[i], iban) && r.value[i].reference.Some? && r.value[i].reference.value in transactions
        && transactions[r.value[i].reference.value] == r.value[i]
      ensures r.Success? ==> forall reference ::
        reference in transactions && OwnedBy(transactions[reference], iban) ==> transactions[reference] in r.value
      ensures r.Success? ==> NoDuplicates(r.value)
      ensures r.Success? && SortDirection(sortType).Some?
          ==> SortedBy(r.value, Amount, SortDirection(sortType).value)
    {
      if FindAccount(iban).None? {
        return Failure(DataNotFound("transactions", iban));
      }
      var list := FindByAccount(iban);
      var direction := SortDirection(sortType);
      if direction.None? {
        return Success(list);
      }
      var sorted := SortBy(list, Amount, direction.value);
      SortBySorted(list, Amount, direction.value);
      SameElements(list, sorted);
      forall i | 0 <= i < |sorted|
        ensures OwnedBy(sorted[i], iban) && sorted[i].reference.Some? && sorted[i].reference.value in transactions
        ensures transactions[sorted[i].reference.value] == sorted[i]
      {
        assert sorted[i] in list;
      }
      return Success(sorted);
    }
  }

  /** A rearrangement has the same elements and, like the original, no duplicates. */
  lemma SameElements<T>(s: seq<T>, t: seq<T>)
    requires multiset(s) == multiset(t)
    requires NoDuplicates(s)
    ensures forall x :: x in t <==> x in s
    ensures NoDuplicates(t)
  {
    forall x
      ensures x in t <==> x in s
    {
      assert x in t <==> x in multiset(t);
      assert x in s <==> x in multiset(s);
    }
    forall i, j | 0 <= i < j < |t|
      ensures t[i] != t[j]
    {
      if t[i] == t[j] {
        var x := t[i];
        assert multiset(t)[x] >= 2 by {
          assert t == t[..i] + [t[i]] + t[i + 1..j] + [t[j]] + t[j + 1..];
        }
        MultiplicityOne(s, x);
      }
    }
  }

  /** Without duplicates, each element occurs exactly once. */
  lemma {:induction false} MultiplicityOne<T>(s: seq<T>, x: T)
    requires NoDuplicates(s)
    ensures multiset(s)[x] <= 1
  {
    if s != [] {
      assert s == [s[0]] + s[1..];
      MultiplicityOne(s[1..], x);
      if s[0] == x {
        assert x !in s[1..];
      }
    }
  }
}

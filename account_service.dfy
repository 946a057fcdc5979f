/**
 * AccountService: reads over the store of Account rows, keyed by IBAN, and
 * the listing of one account's transactions, optionally sorted by amount.
 * The account's own list is never changed; sorting returns a new list.
 */
module AccountService {
  import opened Wrappers
  import opened BankTypes
  import opened Model
  import opened Sorting

  /** The account store: each row under its IBAN. */
  type AccountTable = map<string, Account>

  /** The sort key: the transaction's amount. */
  function Amount(t: Transaction): int {
    t.amount
  }

  /** findById: the row stored under the IBAN, if any. */
  function FindById(table: AccountTable, iban: string): (r: Option<Account>)
    ensures r.Some? <==> iban in table
    ensures r.Some? ==> r.value == table[iban]
  {
    if iban in table then Some(table[iban]) else None
  }

  /** The order a sort token asks for: "ASC" or "DESC" in any case; anything else, null included, asks for none. */
  function SelectedDirection(sortType: JString): (r: Option<Direction>)
    ensures r == Some(ASC) <==> EqualsIgnoreCase("ASC", sortType)
    ensures r == Some(DESC) <==> EqualsIgnoreCase("DESC", sortType)
    ensures r.None? <==> !EqualsIgnoreCase("ASC", sortType) && !EqualsIgnoreCase("DESC", sortType)
  {
    if EqualsIgnoreCase("ASC", sortType) then Some(ASC)
    else if EqualsIgnoreCase("DESC", sortType) then Some(DESC)
    else None
  }

  /**
   * findTransactionsById: DataNotFound for an unknown IBAN; otherwise the
   * account's transactions, sorted by amount in the requested direction, or
   * as stored when no direction is requested.
   */
  function FindTransactionsById(table: AccountTable, iban: string, sortType: JString): (r: Result<seq<Transaction>, Error>)
    ensures r.Failure? <==> iban !in table
    ensures r.Failure? ==> r.error == DataNotFound("transactions", iban)
    ensures r.Success? ==> multiset(r.value) == multiset(table[iban].transactions)
    ensures r.Success? && SelectedDirection(sortType).Some?
        ==> SortedBy(r.value, Amount, SelectedDirection(sortType).value)
    ensures r.Success? && SelectedDirection(sortType).None? ==> r.value == table[iban].transactions
  {
    match FindById(table, iban)
    case None => Failure(DataNotFound("transactions", iban))
    case Some(account) =>
      match SelectedDirection(sortType)
      case None => Success(account.transactions)
      case Some(dir) =>
        SortBySorted(account.transactions, Amount, dir);
        Success(SortBy(account.transactions, Amount, dir))
  }

  /** Either sort is stable: transactions of equal amount keep their relative order. */
  lemma FindTransactionsByIdStable(table: AccountTable, iban: string, sortType: JString, amount: int)
    requires iban in table
    ensures FindTransactionsById(table, iban, sortType).Success?
    ensures WithKey(FindTransactionsById(table, iban, sortType).value, Amount, amount)
         == WithKey(table[iban].transactions, Amount, amount)
  {
    match SelectedDirection(sortType)
    case None =>
    case Some(dir) =>
      SortByStable(table[iban].transactions, Amount, dir, amount);
  }
}

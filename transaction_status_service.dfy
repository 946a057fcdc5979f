/**
 * TransactionStatusService: the status view of a stored transaction as a
 * chain of optional values. The status is the first of four candidates
 * that applies; the amount is the first of three channel-specific
 * candidates that applies, and a null channel is refused. The clock is the
 * parameter `now`.
 */
module TransactionStatusService {
  import opened Wrappers
  import opened BankTypes
  import opened Model
  import opened Dto

  const MissingChannel: string := "Please provide a channel for the given reference"

  // ---------------------------------------------------------------------
  // Status
  // ---------------------------------------------------------------------

  /** SETTLED when the transaction's day is before today. */
  function CalculateSettledStatus(transactionDate: DateTime, now: DateTime): (r: Option<Status>)
    ensures r.Some? <==> ToLocalDate(transactionDate) < ToLocalDate(now)
    ensures r.Some? ==> r.value == SETTLED
  {
    if ToLocalDate(transactionDate) < ToLocalDate(now) then Some(SETTLED) else None
  }

  /** PENDING when the transaction's day is today. */
  function CalculatePendingStatus(transactionDate: DateTime, now: DateTime): (r: Option<Status>)
    ensures r.Some? <==> ToLocalDate(transactionDate) == ToLocalDate(now)
    ensures r.Some? ==> r.value == PENDING
  {
    if ToLocalDate(transactionDate) == ToLocalDate(now) then Some(PENDING) else None
  }

  /** PENDING when the transaction's day is after today and the ATM asks. */
  function CalculatePendingStatusForAtm(transactionDate: DateTime, channel: Option<Channel>, now: DateTime): (r: Option<Status>)
    ensures r.Some? <==> ToLocalDate(transactionDate) > ToLocalDate(now) && channel == Some(ATM)
    ensures r.Some? ==> r.value == PENDING
  {
    if ToLocalDate(transactionDate) > ToLocalDate(now) && channel == Some(ATM) then Some(PENDING) else None
  }

  /** FUTURE when the transaction's day is after today. */
  function CalculateFutureStatus(transactionDate: DateTime, now: DateTime): (r: Option<Status>)
    ensures r.Some? <==> ToLocalDate(transactionDate) > ToLocalDate(now)
    ensures r.Some? ==> r.value == FUTURE
  {
    if ToLocalDate(transactionDate) > ToLocalDate(now) then Some(FUTURE) else None
  }

  /** The four candidates tried in order: settled, pending, pending for the ATM, future. */
  function StatusChain(transactionDate: DateTime, channel: Option<Channel>, now: DateTime): Option<Status> {
    CalculateSettledStatus(transactionDate, now)
      .Or(CalculatePendingStatus(transactionDate, now))
      .Or(CalculatePendingStatusForAtm(transactionDate, channel, now))
      .Or(CalculateFutureStatus(transactionDate, now))
  }

  /** Some candidate always applies, so the final get() never throws. */
  lemma StatusChainIsPresent(transactionDate: DateTime, channel: Option<Channel>, now: DateTime)
    ensures StatusChain(transactionDate, channel, now).Some?
  {
    var day, today := ToLocalDate(transactionDate), ToLocalDate(now);
    if day < today {
      assert CalculateSettledStatus(transactionDate, now).Some?;
    } else if day == today {
      assert CalculatePendingStatus(transactionDate, now).Some?;
    } else {
      assert CalculateFutureStatus(transactionDate, now).Some?;
    }
  }

  /**
   * calculateStatus: by the day alone, earlier days are SETTLED, today is
   * PENDING, later days are FUTURE except for the ATM, which sees PENDING.
   */
  function CalculateStatus(transactionDate: DateTime, channel: Option<Channel>, now: DateTime): (r: Status)
    ensures ToLocalDate(transactionDate) < ToLocalDate(now) ==> r == SETTLED
    ensures ToLocalDate(transactionDate) == ToLocalDate(now) ==> r == PENDING
    ensures ToLocalDate(transactionDate) > ToLocalDate(now) ==> r == (if channel == Some(ATM) then PENDING else FUTURE)
    ensures r != INVALID
  {
    StatusChainIsPresent(transactionDate, channel, now);
    StatusChain(transactionDate, channel, now).value
  }

  // ---------------------------------------------------------------------
  // Amount
  // ---------------------------------------------------------------------

  function Abs(x: int): nat {
    if x < 0 then -x else x
  }

  /**
   * calculateAmountSubtractingFee: the fee (0 when null) is taken off the
   * magnitude of the amount and the amount's sign is put back.
   */
  function CalculateAmountSubtractingFee(amount: Money, fee: Option<Money>): (r: Money)
    ensures fee.None? ==> r == amount
    ensures amount >= 0 ==> r == amount - fee.GetOr(0)
    ensures amount < 0 ==> r == amount + fee.GetOr(0)
    ensures 0 <= fee.GetOr(0) <= Abs(amount) ==> Abs(r) == Abs(amount) - fee.GetOr(0)
    ensures 0 <= fee.GetOr(0) <= Abs(amount) ==> (amount >= 0 ==> r >= 0) && (amount < 0 ==> r <= 0)
  {
    var signChanger := if amount < 0 then -1 else 1;
    (Abs(amount) - fee.GetOr(0)) * signChanger
  }

  /** 193.38 with a fee of 3.18 gives 190.20 (in cents). */
  lemma CalculateAmountSubtractingFeeExample()
    ensures CalculateAmountSubtractingFee(19338, Some(318)) == 19020
    ensures CalculateAmountSubtractingFee(-19338, Some(318)) == -19020
  {
  }

  /** The fee-adjusted amount for the CLIENT channel, absent for any other channel. */
  function CalculateClientAmount(transaction: TransactionDto, channel: Option<Channel>): (r: Option<Money>)
    ensures r.Some? <==> channel == Some(CLIENT)
    ensures r.Some? ==> r.value == CalculateAmountSubtractingFee(transaction.amount, transaction.fee)
  {
    if channel == Some(CLIENT) then Some(CalculateAmountSubtractingFee(transaction.amount, transaction.fee)) else None
  }

  /** The fee-adjusted amount for the ATM channel, absent for any other channel. */
  function CalculateAtmAmount(transaction: TransactionDto, channel: Option<Channel>): (r: Option<Money>)
    ensures r.Some? <==> channel == Some(ATM)
    ensures r.Some? ==> r.value == CalculateAmountSubtractingFee(transaction.amount, transaction.fee)
  {
    if channel == Some(ATM) then Some(CalculateAmountSubtractingFee(transaction.amount, transaction.fee)) else None
  }

  /** The raw amount for the INTERNAL channel, absent for any other channel. */
  function CalculateInternalAmount(transaction: TransactionDto, channel: Option<Channel>): (r: Option<Money>)
    ensures r.Some? <==> channel == Some(INTERNAL)
    ensures r.Some? ==> r.value == transaction.amount
  {
    if channel == Some(INTERNAL) then Some(transaction.amount) else None
  }

  /** The three channel candidates tried in order: client, ATM, internal. */
  function AmountChain(transaction: TransactionDto, channel: Option<Channel>): Option<Money> {
    CalculateClientAmount(transaction, channel)
      .Or(CalculateAtmAmount(transaction, channel))
      .Or(CalculateInternalAmount(transaction, channel))
  }

  /** Every channel has a candidate, so only a null channel reaches orElseThrow. */
  lemma {:induction false} AmountChainCoversChannels(transaction: TransactionDto, channel: Channel)
    ensures AmountChain(transaction, Some(channel)).Some?
  {
    match channel
    case CLIENT => assert CalculateClientAmount(transaction, Some(channel)).Some?;
    case ATM => assert CalculateAtmAmount(transaction, Some(channel)).Some?;
    case INTERNAL => assert CalculateInternalAmount(transaction, Some(channel)).Some?;
  }

  /**
   * calculateAmount: CLIENT and ATM see the fee-adjusted amount, INTERNAL
   * the raw amount; without a channel it throws BAD_REQUEST.
   */
  function CalculateAmount(transaction: TransactionDto, channel: Option<Channel>): (r: Result<Money, Error>)
    ensures r.Failure? <==> channel.None?
    ensures r.Failure? ==> r.error == BadRequest(MissingChannel)
    ensures channel == Some(CLIENT) || channel == Some(ATM)
        ==> r == Success(CalculateAmountSubtractingFee(transaction.amount, transaction.fee))
    ensures channel == Some(INTERNAL) ==> r == Success(transaction.amount)
  {
    match AmountChain(transaction, channel)
    case Some(value) => Success(value)
    case None =>
      assert channel.None? by {
        if channel.Some? {
          AmountChainCoversChannels(transaction, channel.value);
        }
      }
      Failure(BadRequest(MissingChannel))
  }

  // ---------------------------------------------------------------------
  // The status view
  // ---------------------------------------------------------------------

  /**
   * buildTransactionStatus: reference and status of the stored transaction,
   * the channel's amount, and the fee only for INTERNAL.
   */
  function BuildTransactionStatus(transaction: TransactionDto, channel: Option<Channel>, now: DateTime): (r: Result<TransactionStatus, Error>)
    ensures r.Failure? <==> channel.None?
    ensures r.Failure? ==> r.error == BadRequest(MissingChannel)
    ensures r.Success? ==> r.value.reference == transaction.reference
    ensures r.Success? ==> r.value.status == Some(CalculateStatus(transaction.date, channel, now))
    ensures channel == Some(CLIENT) || channel == Some(ATM)
        ==> r.Success? && r.value.fee.None?
    ensures channel == Some(CLIENT) || channel == Some(ATM)
        ==> r.Success? && r.value.amount == Some(CalculateAmountSubtractingFee(transaction.amount, transaction.fee))
    ensures channel == Some(INTERNAL)
        ==> r.Success? && r.value.amount == Some(transaction.amount) && r.value.fee == transaction.fee
  {
    var status := CalculateStatus(transaction.date, channel, now);
    match CalculateAmount(transaction, channel)
    case Failure(e) => Failure(e)
    case Success(amount) =>
      var fee := if channel == Some(INTERNAL) then transaction.fee else None;
      Success(TransactionStatus(transaction.reference, Some(status), Some(amount), fee))
  }

  /** The view of a reference nobody stored: INVALID, with no amount and no fee. */
  function InvalidStatus(reference: JString): (r: TransactionStatus)
    ensures r.reference == reference && r.status == Some(INVALID)
    ensures r.amount.None? && r.fee.None?
  {
    TransactionStatus(reference, Some(INVALID), None, None)
  }

  /**
   * findStatusFromChannel, given the result of looking the requested
   * reference up: the stored transaction's view, or INVALID for an unknown
   * reference whatever the channel.
   */
  function FindStatusFromChannel(found: Option<TransactionDto>, requester: TransactionStatusRequester, now: DateTime)
    : (r: Result<TransactionStatus, Error>)
    ensures found.None? ==> r == Success(InvalidStatus(requester.reference))
    ensures found.Some? ==> (r.Failure? <==> requester.channel.None?)
    ensures found.Some? && r.Success?
        ==> r.value.reference == found.value.reference && r.value.status.Some? && r.value.status.value != INVALID
    ensures found.Some? && r.Success? ==> r.value.amount.Some?
    ensures found.Some? ==> r == BuildTransactionStatus(found.value, requester.channel, now)
  {
    match found
    case None => Success(InvalidStatus(requester.reference))
    case Some(transaction) => BuildTransactionStatus(transaction, requester.channel, now)
  }
}

/**
 * Payment records: the status predicates, the `mark_as_*` transitions with
 * the retry counter, provider fees and the net amount, and the fee rule
 * of a configured provider.
 *
 * A blank `transaction_id` or `failure_reason` column and a missing argument
 * behave alike (both falsy), so each is the empty string here.
 */
module Payments {
  import opened Common
  import Accounts

  const PENDING: string := "pending"
  const PROCESSING: string := "processing"
  const COMPLETED: string := "completed"
  const FAILED: string := "failed"
  const REFUNDED: string := "refunded"

  const MTN_MOMO: string := "mtn_momo"
  const ORANGE_MONEY: string := "orange_money"
  const WALLET: string := "wallet"

  const ORDER_PAYMENT: string := "order_payment"
  const WALLET_TOPUP: string := "wallet_topup"

  const MAX_RETRIES: nat := 3

  /** The columns the transitions write. */
  datatype PaymentState = PaymentState(
    status: string,
    processedAt: Option<int>,
    completedAt: Option<int>,
    transactionId: string,
    failureReason: string,
    retryCount: nat)

  // ---------------------------------------------------------------------
  // Predicates
  // ---------------------------------------------------------------------

  predicate IsSuccessful(s: PaymentState) { s.status == COMPLETED }

  predicate IsPending(s: PaymentState) { s.status == PENDING || s.status == PROCESSING }

  predicate CanRetry(s: PaymentState) { s.status == FAILED && s.retryCount < MAX_RETRIES }

  /** At most one of the three holds. */
  lemma PredicatesExclusive(s: PaymentState)
    ensures !(IsSuccessful(s) && IsPending(s))
    ensures !(IsSuccessful(s) && CanRetry(s))
    ensures !(IsPending(s) && CanRetry(s))
  {
  }

  // ---------------------------------------------------------------------
  // Transitions (none of them reads the prior status)
  // ---------------------------------------------------------------------

  function Processing(s: PaymentState, now: int): (r: PaymentState)
    ensures IsPending(r) && !CanRetry(r)
  {
    s.(status := PROCESSING, processedAt := Some(now))
  }

  /** `mark_as_completed(transaction_id)`: a blank id keeps the stored one. */
  function Completed(s: PaymentState, now: int, transactionId: string): (r: PaymentState)
    ensures IsSuccessful(r) && !IsPending(r)
    ensures transactionId != "" ==> r.transactionId == transactionId
    ensures transactionId == "" ==> r.transactionId == s.transactionId
  {
    s.(status := COMPLETED, completedAt := Some(now),
       transactionId := if transactionId != "" then transactionId else s.transactionId)
  }

  /** `mark_as_failed(reason)`: one more retry on record; a blank reason keeps the stored one. */
  function Failed(s: PaymentState, reason: string): (r: PaymentState)
    ensures r.retryCount == s.retryCount + 1
    ensures CanRetry(r) <==> s.retryCount + 1 < MAX_RETRIES
    ensures reason != "" ==> r.failureReason == reason
    ensures reason == "" ==> r.failureReason == s.failureReason
  {
    s.(status := FAILED, retryCount := s.retryCount + 1,
       failureReason := if reason != "" then reason else s.failureReason)
  }

  /** Each transition leaves every column it does not name as it was. */
  lemma TransitionsTouchOnlyTheirColumns(s: PaymentState, now: int, tid: string, reason: string)
    ensures Processing(s, now).(status := s.status, processedAt := s.processedAt) == s
    ensures Completed(s, now, tid).(status := s.status, completedAt := s.completedAt, transactionId := s.transactionId) == s
    ensures Failed(s, reason).(status := s.status, retryCount := s.retryCount, failureReason := s.failureReason) == s
  {
  }

  /** No status guard: a completed payment can still be failed, and a failed one completed. */
  lemma NoStatusGuards(s: PaymentState, now: int, reason: string)
    requires IsSuccessful(s)
    ensures Failed(s, reason).status == FAILED
    ensures Completed(Failed(s, reason), now, "").status == COMPLETED
  {
  }

  /** A run of failures, one per given reason. */
  function FailedTimes(s: PaymentState, reasons: seq<string>): PaymentState
  {
    if |reasons| == 0 then s else Failed(FailedTimes(s, reasons[..|reasons| - 1]), reasons[|reasons| - 1])
  }

  lemma {:induction false} FailedTimesCount(s: PaymentState, reasons: seq<string>)
    ensures FailedTimes(s, reasons).retryCount == s.retryCount + |reasons|
    ensures |reasons| > 0 ==> FailedTimes(s, reasons).status == FAILED
  {
    if |reasons| > 0 {
      FailedTimesCount(s, reasons[..|reasons| - 1]);
    }
  }

  /** Starting from no retries, a payment can be retried after one or two failures but not after three. */
  lemma RetryBudget(s: PaymentState, reasons: seq<string>)
    requires s.retryCount == 0 && |reasons| > 0
    ensures CanRetry(FailedTimes(s, reasons)) <==> |reasons| < MAX_RETRIES
  {
    FailedTimesCount(s, reasons);
  }

  // ---------------------------------------------------------------------
  // Fees
  // ---------------------------------------------------------------------

  function Max(a: real, b: real): real { if a >= b then a else b }
  function Min(a: real, b: real): real { if a <= b then a else b }

  /** `max(lo, min(hi, x))`. */
  function Clamp(lo: real, hi: real, x: real): (r: real)
    ensures r >= lo
    ensures lo <= hi ==> r <= hi
    ensures lo <= x <= hi ==> r == x
    ensures x < lo ==> r == lo
    ensures lo <= hi < x ==> r == hi
  {
    Max(lo, Min(hi, x))
  }

  /** The provider fees, with the percentages as exact decimals. */
  function ProviderFee(paymentMethod: string, amount: real): (fee: real)
    ensures paymentMethod == MTN_MOMO ==> 100.0 <= fee <= 500.0
    ensures paymentMethod == ORANGE_MONEY ==> 50.0 <= fee <= 300.0
    ensures paymentMethod != MTN_MOMO && paymentMethod != ORANGE_MONEY ==> fee == 0.0
  {
    if paymentMethod == MTN_MOMO then Clamp(100.0, 500.0, amount * 0.01)
    else if paymentMethod == ORANGE_MONEY then Clamp(50.0, 300.0, amount * 0.005)
    else 0.0
  }

  /** Fee and net amount as intended: the amount less the clamped fee. */
  function NetAmount(paymentMethod: string, amount: real): (r: (real, real))
    ensures r.0 == ProviderFee(paymentMethod, amount) && r.1 == amount - r.0
  {
    var fee := ProviderFee(paymentMethod, amount);
    (fee, amount - fee)
  }

  /** Within the proportional band the fee is exactly the percentage; below it the floor can exceed the amount. */
  lemma NetAmountShape(amount: real)
    ensures 10000.0 <= amount <= 50000.0 ==> NetAmount(MTN_MOMO, amount).0 == amount * 0.01
    ensures 10000.0 <= amount <= 60000.0 ==> NetAmount(ORANGE_MONEY, amount).0 == amount * 0.005
    ensures 0.0 < amount < 100.0 ==> NetAmount(MTN_MOMO, amount).1 < 0.0
    ensures NetAmount(WALLET, amount).1 == amount
  {
  }

  /**
   * `calculate_net_amount` as written: `Decimal * float` raises TypeError
   * for the two providers (None); other methods get a fee of 0.
   */
  function NetAmountAsWritten(paymentMethod: string, amount: real): (r: Option<(real, real)>)
    ensures r.None? <==> paymentMethod == MTN_MOMO || paymentMethod == ORANGE_MONEY
    ensures r.Some? ==> r.value == NetAmount(paymentMethod, amount)
  {
    if paymentMethod == MTN_MOMO || paymentMethod == ORANGE_MONEY then None
    else Some((0.0, amount))
  }

  /** The written code and the intended rule part ways exactly on provider payments. */
  lemma NetAmountAsWrittenFails(amount: real)
    ensures NetAmountAsWritten(MTN_MOMO, amount).None? && NetAmountAsWritten(ORANGE_MONEY, amount).None?
    ensures NetAmount(MTN_MOMO, amount).0 >= 100.0
  {
  }

  /** `PaymentProvider.calculate_fee`: the percentage of the amount, clamped to the configured bounds. */
  function CalculateFee(feePercentage: real, minimumFee: real, maximumFee: real, amount: real): (fee: real)
    ensures fee >= minimumFee
    ensures minimumFee <= maximumFee ==> minimumFee <= fee <= maximumFee
    ensures minimumFee > maximumFee ==> fee == minimumFee
    ensures minimumFee <= amount * (feePercentage / 100.0) <= maximumFee ==> fee == amount * (feePercentage / 100.0)
  {
    Clamp(minimumFee, maximumFee, amount * (feePercentage / 100.0))
  }

  /** With the built-in providers' settings the configurable rule gives the same fee. */
  lemma ConfiguredFeeMatches(amount: real)
    ensures CalculateFee(1.0, 100.0, 500.0, amount) == ProviderFee(MTN_MOMO, amount)
    ensures CalculateFee(0.5, 50.0, 300.0, amount) == ProviderFee(ORANGE_MONEY, amount)
  {
  }

  // ---------------------------------------------------------------------
  // The mutable payment
  // ---------------------------------------------------------------------

  class Payment {
    const paymentReference: string
    const user: Accounts.User
    const orderNumber: Option<string>     // None when the payment has no order
    const paymentMethod: string
    const transactionType: string
    const amount: real
    const phoneNumber: string
    var status: string
    var processedAt: Option<int>
    var completedAt: Option<int>
    var transactionId: string
    var failureReason: string
    var retryCount: nat
    var transactionFee: real
    var netAmount: real

    /** A new pending payment with the column defaults. */
    constructor (paymentReference: string, user: Accounts.User, orderNumber: Option<string>, paymentMethod: string,
                 transactionType: string, amount: real, phoneNumber: string)
      ensures this.paymentReference == paymentReference && this.user == user && this.orderNumber == orderNumber
      ensures this.paymentMethod == paymentMethod && this.transactionType == transactionType
      ensures this.amount == amount && this.phoneNumber == phoneNumber
      ensures State() == PaymentState(PENDING, None, None, "", "", 0)
      ensures transactionFee == 0.0 && netAmount == 0.0
    {
      this.paymentReference := paymentReference;
      this.user := user;
      this.orderNumber := orderNumber;
      this.paymentMethod := paymentMethod;
      this.transactionType := transactionType;
      this.amount := amount;
      this.phoneNumber := phoneNumber;
      status := PENDING;
      processedAt, completedAt := None, None;
      transactionId, failureReason := "", "";
      retryCount := 0;
      transactionFee, netAmount := 0.0, 0.0;
    }

    function State(): PaymentState
      reads this
    {
      PaymentState(status, processedAt, completedAt, transactionId, failureReason, retryCount)
    }

    method MarkAsProcessing(now: int)
      modifies this
      ensures State() == Processing(old(State()), now)
      ensures transactionFee == old(transactionFee) && netAmount == old(netAmount)
    {
      status := PROCESSING;
      processedAt := Some(now);
    }

    method MarkAsCompleted(now: int, transactionId: string)
      modifies this
      ensures State() == Completed(old(State()), now, transactionId)
      ensures transactionFee == old(transactionFee) && netAmount == old(netAmount)
    {
      status := COMPLETED;
      completedAt := Some(now);
      if transactionId != "" {
        this.transactionId := transactionId;
      }
    }

    method MarkAsFailed(reason: string)
      modifies this
      ensures State() == Failed(old(State()), reason)
      ensures transactionFee == old(transactionFee) && netAmount == old(netAmount)
    {
      status := FAILED;
      retryCount := retryCount + 1;
      if reason != "" {
        failureReason := reason;
      }
    }

    /** `calculate_net_amount` as written; None is the TypeError, with nothing stored. */
    method CalculateNetAmount() returns (net: Option<real>)
      modifies this
      ensures var w := NetAmountAsWritten(paymentMethod, amount);
              (w.None? ==> net.None? && transactionFee == old(transactionFee) && netAmount == old(netAmount))
              && (w.Some? ==> transactionFee == w.value.0 && netAmount == w.value.1 && net == Some(netAmount))
      ensures State() == old(State())
    {
      if paymentMethod == MTN_MOMO || paymentMethod == ORANGE_MONEY {
        return None;
      }
      transactionFee := 0.0;
      netAmount := amount - 0.0;
      net := Some(netAmount);
    }
  }
}

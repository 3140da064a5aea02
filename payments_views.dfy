/**
 * The payment views: paying from the wallet, crediting a top-up, starting a
 * provider payment, polling a provider, the providers' webhooks, the
 * verification endpoint's dispatch, and the checks of the top-up form.
 *
 * Each provider HTTP exchange is an input `Call`: the status code it
 * returned, or the message of the exception it raised. Exceptions raised by
 * this code itself (a missing attribute, a refused keyword) are decided from
 * the values involved. `WalletRow`s are the WalletTransaction table; a
 * `Snapshot` is the wallet balance, the payment's columns and that table.
 */
module PaymentViews {
  import opened Common
  import Accounts
  import Payments
  import Notifications

  datatype Call = Returned(code: nat) | Raised(message: string)

  predicate IsOk(c: Call) { c == Returned(200) }

  // ---------------------------------------------------------------------
  // The wallet ledger
  // ---------------------------------------------------------------------

  const CREDIT: string := "credit"
  const DEBIT: string := "debit"

  datatype WalletRow = WalletRow(transactionType: string, source: string, amount: real,
                                 balanceBefore: real, balanceAfter: real, reference: string)

  /** A row's snapshots differ by its amount, in the direction its type says. */
  predicate RowConsistent(r: WalletRow)
  {
    (r.transactionType == CREDIT && r.balanceAfter == r.balanceBefore + r.amount)
    || (r.transactionType == DEBIT && r.balanceAfter == r.balanceBefore - r.amount)
  }

  predicate LedgerConsistent(rows: seq<WalletRow>)
  {
    forall i :: 0 <= i < |rows| ==> RowConsistent(rows[i])
  }

  /** What the rows say the balance moved by. */
  function LedgerDelta(rows: seq<WalletRow>): real
  {
    if |rows| == 0 then 0.0
    else LedgerDelta(rows[..|rows| - 1]) + (rows[|rows| - 1].balanceAfter - rows[|rows| - 1].balanceBefore)
  }

  lemma LedgerDeltaAppend(rows: seq<WalletRow>, r: WalletRow)
    ensures LedgerDelta(rows + [r]) == LedgerDelta(rows) + (r.balanceAfter - r.balanceBefore)
    ensures LedgerConsistent(rows) && RowConsistent(r) ==> LedgerConsistent(rows + [r])
  {
    assert (rows + [r])[..|rows|] == rows;
  }

  class Ledger {
    var rows: seq<WalletRow>

    constructor ()
      ensures rows == []
    {
      rows := [];
    }
  }

  /** The balance, one payment's columns and the whole ledger. */
  datatype Snapshot = Snapshot(balance: real, payment: Payments.PaymentState, rows: seq<WalletRow>)

  /** The balance moved exactly as the rows added since `a` record. */
  predicate Accounted(a: Snapshot, b: Snapshot)
  {
    |a.rows| <= |b.rows| && b.rows[..|a.rows|] == a.rows
    && b.balance - a.balance == LedgerDelta(b.rows) - LedgerDelta(a.rows)
    && (LedgerConsistent(a.rows) ==> LedgerConsistent(b.rows))
  }

  // ---------------------------------------------------------------------
  // Paying from the wallet
  // ---------------------------------------------------------------------

  const INSUFFICIENT_BALANCE: string := "Insufficient wallet balance"
  /** `str()` of the AttributeError raised by `payment.order.order_number` when there is no order. */
  const NO_ORDER_ERROR: string := "'NoneType' object has no attribute 'order_number'"

  /** `process_wallet_payment` on a snapshot: the new one and whether it reports success. */
  function WalletPayment(a: Snapshot, amount: real, hasOrder: bool, reference: string, now: int): (Snapshot, bool)
  {
    if a.balance < amount then (a.(payment := Payments.Failed(a.payment, INSUFFICIENT_BALANCE)), false)
    else if !hasOrder then
      // Debited and completed, then the ledger row's description raises: marked failed, no row.
      (a.(balance := a.balance - amount,
          payment := Payments.Failed(Payments.Completed(a.payment, now, ""), NO_ORDER_ERROR)), false)
    else
      (Snapshot(a.balance - amount, Payments.Completed(a.payment, now, ""),
                a.rows + [WalletRow(DEBIT, "order_payment", amount, a.balance, a.balance - amount, reference)]),
       true)
  }

  /**
   * Insufficient funds fail the payment and touch neither balance nor ledger;
   * with an order a sufficient balance is debited, the payment completed and
   * exactly one consistent debit row written.
   */
  lemma WalletPaymentSpec(a: Snapshot, amount: real, hasOrder: bool, reference: string, now: int)
    ensures var (b, ok) := WalletPayment(a, amount, hasOrder, reference, now);
            (ok <==> Accounts.HasSufficientBalance(a.balance, amount) && hasOrder)
            && (!Accounts.HasSufficientBalance(a.balance, amount) ==>
                  b.balance == a.balance && b.rows == a.rows && b.payment.status == Payments.FAILED
                  && b.payment.failureReason == INSUFFICIENT_BALANCE
                  && b.payment.retryCount == a.payment.retryCount + 1)
            && (ok ==> b.balance == a.balance - amount && Payments.IsSuccessful(b.payment)
                       && |b.rows| == |a.rows| + 1 && b.rows[|a.rows|].balanceAfter == b.rows[|a.rows|].balanceBefore - amount
                       && Accounted(a, b))
  {
    var (b, ok) := WalletPayment(a, amount, hasOrder, reference, now);
    if ok {
      LedgerDeltaAppend(a.rows, b.rows[|a.rows|]);
      assert b.rows == a.rows + [b.rows[|a.rows|]];
    }
  }

  /** A payment without an order is debited yet ends failed with no row: the ledger no longer explains the balance. */
  lemma WalletPaymentWithoutOrderLosesTrack(a: Snapshot, amount: real, reference: string, now: int)
    requires amount > 0.0 && a.balance >= amount
    ensures var (b, ok) := WalletPayment(a, amount, false, reference, now);
            !ok && b.balance == a.balance - amount && b.rows == a.rows && b.payment.status == Payments.FAILED
            && !Accounted(a, b)
  {
  }

  /** `process_wallet_payment`. */
  method ProcessWalletPayment(payment: Payments.Payment, ledger: Ledger, now: int) returns (success: bool)
    modifies payment, payment.user, ledger
    ensures payment.user.State() == old(payment.user.State()).(walletBalance := payment.user.walletBalance)
    ensures (Snapshot(payment.user.walletBalance, payment.State(), ledger.rows), success)
            == WalletPayment(Snapshot(old(payment.user.walletBalance), old(payment.State()), old(ledger.rows)),
                             payment.amount, payment.orderNumber.Some?, payment.paymentReference, now)
  {
    var user := payment.user;
    var amount := payment.amount;
    if !(user.walletBalance >= amount) {
      payment.MarkAsFailed(INSUFFICIENT_BALANCE);
      return false;
    }
    var oldBalance := user.walletBalance;
    var ok := user.DeductFromWallet(amount);
    payment.MarkAsCompleted(now, "");
    if payment.orderNumber.None? {
      payment.MarkAsFailed(NO_ORDER_ERROR);
      return false;
    }
    ledger.rows := ledger.rows + [WalletRow(DEBIT, "order_payment", amount, oldBalance, user.walletBalance,
                                            payment.paymentReference)];
    success := true;
  }

  // ---------------------------------------------------------------------
  // Crediting a top-up
  // ---------------------------------------------------------------------

  /** The credit part of `complete_wallet_topup`. */
  function TopupCredit(a: Snapshot, amount: real, reference: string): (b: Snapshot)
    ensures b.balance == a.balance + amount && b.payment == a.payment
    ensures b.rows == a.rows + [WalletRow(CREDIT, "topup", amount, a.balance, b.balance, reference)]
    ensures Accounted(a, b)
  {
    var row := WalletRow(CREDIT, "topup", amount, a.balance, a.balance + amount, reference);
    LedgerDeltaAppend(a.rows, row);
    Snapshot(a.balance + amount, a.payment, a.rows + [row])
  }

  /**
   * `complete_wallet_topup`: credits the wallet and writes the row, then
   * creates the notification with `notifyKwargs`; `raised` is the error it
   * re-raises when that is refused (the credit stays).
   */
  method CompleteWalletTopup(payment: Payments.Payment, ledger: Ledger, notifyKwargs: set<string>)
    returns (raised: bool)
    modifies payment.user, ledger
    ensures payment.user.State() == old(payment.user.State()).(walletBalance := payment.user.walletBalance)
    ensures Snapshot(payment.user.walletBalance, payment.State(), ledger.rows)
            == TopupCredit(Snapshot(old(payment.user.walletBalance), payment.State(), old(ledger.rows)),
                           payment.amount, payment.paymentReference)
    ensures raised <==> !Notifications.CreateAccepts(notifyKwargs)
  {
    var user := payment.user;
    var oldBalance := user.walletBalance;
    var _ := user.AddToWallet(payment.amount);
    ledger.rows := ledger.rows + [WalletRow(CREDIT, "topup", payment.amount, oldBalance, user.walletBalance,
                                            payment.paymentReference)];
    raised := !Notifications.CreateAccepts(notifyKwargs);
  }

  // ---------------------------------------------------------------------
  // Starting a provider payment
  // ---------------------------------------------------------------------

  const MTN_TOKEN_ERROR: string := "Failed to get MTN access token"
  const ORANGE_AUTH_FAILED: string := "Orange authentication failed"
  const ORANGE_API_ERROR: string := "Orange API error"

  /**
   * `process_mtn_payment`: marked processing, then the token call, the
   * payload (which reads the order number) and the request; 202 stores the
   * request's reference id.
   */
  function MtnInitiation(s: Payments.PaymentState, hasOrder: bool, token: Call, request: Call,
                         referenceId: string, now: int): (Payments.PaymentState, bool)
  {
    var p := Payments.Processing(s, now);
    if token.Raised? then (Payments.Failed(p, token.message), false)
    else if token.code != 200 then (Payments.Failed(p, MTN_TOKEN_ERROR), false)
    else if !hasOrder then (Payments.Failed(p, NO_ORDER_ERROR), false)
    else if request.Raised? then (Payments.Failed(p, request.message), false)
    else if request.code == 202 then (p.(transactionId := referenceId), true)
    else (Payments.Failed(p, "MTN API Error: " + NatToString(request.code)), false)
  }

  /**
   * `process_orange_payment`: marked processing, then authentication, the
   * payload and the request; 201 stores the returned pay token. A missing pay
   * token makes the save fail (`saveError` is that error's text).
   */
  function OrangeInitiation(s: Payments.PaymentState, hasOrder: bool, auth: Call, request: Call,
                            payToken: Option<string>, saveError: string, now: int): (Payments.PaymentState, bool)
  {
    var p := Payments.Processing(s, now);
    if auth.Raised? then (Payments.Failed(p, auth.message), false)
    else if auth.code != 200 then (Payments.Failed(p, ORANGE_AUTH_FAILED), false)
    else if !hasOrder then (Payments.Failed(p, NO_ORDER_ERROR), false)
    else if request.Raised? then (Payments.Failed(p, request.message), false)
    else if request.code == 201 then
      if payToken.None? then (Payments.Failed(p, saveError), false)
      else (p.(transactionId := payToken.value), true)
    else (Payments.Failed(p, ORANGE_API_ERROR), false)
  }

  /**
   * Either way the payment is first marked processing. Success leaves it
   * processing with the provider's id and the retry count untouched; any
   * failure leaves it failed with one more retry on record.
   */
  lemma InitiationSpec(s: Payments.PaymentState, hasOrder: bool, c1: Call, c2: Call, id: string,
                       payToken: Option<string>, saveError: string, now: int)
    ensures var (m, ok) := MtnInitiation(s, hasOrder, c1, c2, id, now);
            m.processedAt == Some(now)
            && (ok <==> IsOk(c1) && hasOrder && c2 == Returned(202))
            && (ok ==> m.status == Payments.PROCESSING && m.transactionId == id && m.retryCount == s.retryCount)
            && (!ok ==> m.status == Payments.FAILED && m.retryCount == s.retryCount + 1)
    ensures var (o, ok) := OrangeInitiation(s, hasOrder, c1, c2, payToken, saveError, now);
            o.processedAt == Some(now)
            && (ok <==> IsOk(c1) && hasOrder && c2 == Returned(201) && payToken.Some?)
            && (ok ==> o.status == Payments.PROCESSING && o.transactionId == payToken.value
                       && o.retryCount == s.retryCount)
            && (!ok ==> o.status == Payments.FAILED && o.retryCount == s.retryCount + 1)
  {
  }

  /** A refused MTN request records its status code in the failure reason. */
  lemma MtnErrorNamesCode(s: Payments.PaymentState, code: nat, id: string, now: int)
    requires code != 202
    ensures MtnInitiation(s, true, Returned(200), Returned(code), id, now).0.failureReason
            == "MTN API Error: " + NatToString(code)
  {
  }

  method ProcessMtnPayment(payment: Payments.Payment, token: Call, request: Call, referenceId: string, now: int)
    returns (success: bool)
    modifies payment
    ensures (payment.State(), success)
            == MtnInitiation(old(payment.State()), payment.orderNumber.Some?, token, request, referenceId, now)
  {
    payment.MarkAsProcessing(now);
    if token.Raised? {
      payment.MarkAsFailed(token.message);
      return false;
    }
    if token.code != 200 {
      payment.MarkAsFailed(MTN_TOKEN_ERROR);
      return false;
    }
    if payment.orderNumber.None? {
      payment.MarkAsFailed(NO_ORDER_ERROR);
      return false;
    }
    if request.Raised? {
      payment.MarkAsFailed(request.message);
      return false;
    }
    if request.code == 202 {
      payment.transactionId := referenceId;
      return true;
    }
    payment.MarkAsFailed("MTN API Error: " + NatToString(request.code));
    success := false;
  }

  method ProcessOrangePayment(payment: Payments.Payment, auth: Call, request: Call, payToken: Option<string>,
                              saveError: string, now: int) returns (success: bool)
    modifies payment
    ensures (payment.State(), success)
            == OrangeInitiation(old(payment.State()), payment.orderNumber.Some?, auth, request, payToken, saveError, now)
  {
    payment.MarkAsProcessing(now);
    if auth.Raised? {
      payment.MarkAsFailed(auth.message);
      return false;
    }
    if auth.code != 200 {
      payment.MarkAsFailed(ORANGE_AUTH_FAILED);
      return false;
    }
    if payment.orderNumber.None? {
      payment.MarkAsFailed(NO_ORDER_ERROR);
      return false;
    }
    if request.Raised? {
      payment.MarkAsFailed(request.message);
      return false;
    }
    if request.code != 201 {
      payment.MarkAsFailed(ORANGE_API_ERROR);
      return false;
    }
    if payToken.None? {
      payment.MarkAsFailed(saveError);
      return false;
    }
    payment.transactionId := payToken.value;
    success := true;
  }

  // ---------------------------------------------------------------------
  // Provider status words
  // ---------------------------------------------------------------------

  datatype Provider = Mtn | Orange

  datatype Verdict = ProviderSuccess | ProviderFailure | ProviderOther

  /** The upper-cased status word, read per provider. */
  function VerdictOf(provider: Provider, statusText: string): (v: Verdict)
    ensures provider == Mtn ==> (v == ProviderSuccess <==> Upper(statusText) == "SUCCESSFUL")
                                && (v == ProviderFailure <==> Upper(statusText) == "FAILED")
    ensures provider == Orange ==> (v == ProviderSuccess <==> Upper(statusText) == "SUCCESS")
                                   && (v == ProviderFailure <==> Upper(statusText) in {"FAILED", "EXPIRED"})
  {
    var w := Upper(statusText);
    match provider
    case Mtn => if w == "SUCCESSFUL" then ProviderSuccess else if w == "FAILED" then ProviderFailure else ProviderOther
    case Orange =>
      if w == "SUCCESS" then ProviderSuccess
      else if w == "FAILED" || w == "EXPIRED" then ProviderFailure
      else ProviderOther
  }

  /** The status word is read without regard to case. */
  lemma VerdictIgnoresCase(provider: Provider, statusText: string)
    ensures VerdictOf(provider, Upper(statusText)) == VerdictOf(provider, statusText)
  {
    UpperIdempotent(statusText);
  }

  // ---------------------------------------------------------------------
  // Settling a payment on the provider's word
  // ---------------------------------------------------------------------

  const PROVIDER_FAILED: string := "Payment failed by provider"

  /** How settling ended: the two transitions, no change, or an exception escaping to the caller. */
  datatype Settled = SettledCompleted | SettledFailed | SettledUnchanged | SettledRaised

  /**
   * The branch shared by polling and the webhooks. `topupFlag` is what the
   * top-up test evaluates to (None when it raises); `notifyKwargs` the
   * keywords `complete_wallet_topup` gives its notification.
   */
  function Settle(a: Snapshot, amount: real, reference: string, v: Verdict, topupFlag: Option<bool>,
                  notifyKwargs: set<string>, now: int): (Snapshot, Settled)
  {
    match v
    case ProviderSuccess =>
      if topupFlag.None? then (a, SettledRaised)
      else if topupFlag.value then
        var c := TopupCredit(a, amount, reference);
        if !Notifications.CreateAccepts(notifyKwargs) then (c, SettledRaised)
        else (c.(payment := Payments.Completed(c.payment, now, "")), SettledCompleted)
      else (a.(payment := Payments.Completed(a.payment, now, "")), SettledCompleted)
    case ProviderFailure => (a.(payment := Payments.Failed(a.payment, PROVIDER_FAILED)), SettledFailed)
    case ProviderOther => (a, SettledUnchanged)
  }

  /** Settling always keeps the ledger explaining the balance, and only a top-up moves money. */
  lemma SettleAccounted(a: Snapshot, amount: real, reference: string, v: Verdict, topupFlag: Option<bool>,
                        notifyKwargs: set<string>, now: int)
    ensures var (b, _) := Settle(a, amount, reference, v, topupFlag, notifyKwargs, now);
            Accounted(a, b)
            && (b.balance != a.balance ==> v == ProviderSuccess && topupFlag == Some(true) && b.balance == a.balance + amount)
  {
    var (b, _) := Settle(a, amount, reference, v, topupFlag, notifyKwargs, now);
    if b.rows == a.rows {
      assert b.rows[..|a.rows|] == a.rows;
    }
  }

  /** Settling maps the provider's word onto the payment status. */
  lemma SettleStatus(a: Snapshot, amount: real, reference: string, v: Verdict, topupFlag: Option<bool>,
                     notifyKwargs: set<string>, now: int)
    ensures var (b, o) := Settle(a, amount, reference, v, topupFlag, notifyKwargs, now);
            (o == SettledCompleted <==>
               v == ProviderSuccess && topupFlag.Some? && (topupFlag.value ==> Notifications.CreateAccepts(notifyKwargs)))
            && (o == SettledCompleted ==> Payments.IsSuccessful(b.payment))
            && (o == SettledFailed <==> v == ProviderFailure)
            && (o == SettledFailed ==> b.payment == Payments.Failed(a.payment, PROVIDER_FAILED) && b.rows == a.rows)
            && (o in {SettledUnchanged, SettledRaised} ==> b.payment == a.payment)
            && (v == ProviderOther ==> b == a)
  {
  }

  /**
   * Nothing stops a second success report for a top-up from crediting the
   * wallet again, although the first already completed the payment.
   */
  lemma RepeatedSuccessCreditsTwice(a: Snapshot, amount: real, reference: string, now1: int, now2: int)
    requires Notifications.CreateAccepts(Notifications.INTENDED_KWARGS)
    ensures var (b, _) := Settle(a, amount, reference, ProviderSuccess, Some(true), Notifications.INTENDED_KWARGS, now1);
            var (c, o) := Settle(b, amount, reference, ProviderSuccess, Some(true), Notifications.INTENDED_KWARGS, now2);
            Payments.IsSuccessful(b.payment) && o == SettledCompleted
            && c.balance == a.balance + amount + amount && |c.rows| == |a.rows| + 2
  {
  }

  /**
   * With the notification keywords the source passes, a top-up success is
   * credited but the payment is never completed, so every later poll credits
   * the wallet once more.
   */
  lemma TopupNotificationRefusedCreditsEachPoll(a: Snapshot, amount: real, reference: string, now: int)
    ensures var (b, o) := Settle(a, amount, reference, ProviderSuccess, Some(true),
                                 Notifications.TOPUP_NOTIFICATION_KWARGS, now);
            var (c, _) := Settle(b, amount, reference, ProviderSuccess, Some(true),
                                 Notifications.TOPUP_NOTIFICATION_KWARGS, now);
            o == SettledRaised && b.payment == a.payment && c.payment == a.payment
            && c.balance == a.balance + amount + amount
  {
    Notifications.CallerKwargsRejected();
  }

  /** The Payment model has no `payment_type`; reading it raises AttributeError. */
  function TopupFlagAsWritten(transactionType: string): Option<bool>
  {
    None
  }

  /** The test the views evidently mean: the payment's own transaction type. */
  function TopupFlag(transactionType: string): (r: Option<bool>)
    ensures r.Some? && (r.value <==> transactionType == Payments.WALLET_TOPUP)
  {
    Some(transactionType == Payments.WALLET_TOPUP)
  }

  /** As written a success word never completes anything; with the intended test it completes a non-top-up. */
  lemma SuccessBranchAsWritten(a: Snapshot, amount: real, reference: string, t: string, kw: set<string>, now: int)
    ensures Settle(a, amount, reference, ProviderSuccess, TopupFlagAsWritten(t), kw, now) == (a, SettledRaised)
    ensures t != Payments.WALLET_TOPUP ==>
              Settle(a, amount, reference, ProviderSuccess, TopupFlag(t), kw, now).1 == SettledCompleted
  {
  }

  /** Applies `Settle` to a stored payment, its owner's wallet and the ledger. */
  method SettlePayment(payment: Payments.Payment, ledger: Ledger, v: Verdict, topupFlag: Option<bool>,
                       notifyKwargs: set<string>, now: int) returns (o: Settled)
    modifies payment, payment.user, ledger
    ensures payment.user.State() == old(payment.user.State()).(walletBalance := payment.user.walletBalance)
    ensures (Snapshot(payment.user.walletBalance, payment.State(), ledger.rows), o)
            == Settle(Snapshot(old(payment.user.walletBalance), old(payment.State()), old(ledger.rows)),
                      payment.amount, payment.paymentReference, v, topupFlag, notifyKwargs, now)
  {
    match v
    case ProviderSuccess =>
      if topupFlag.None? {
        return SettledRaised;
      }
      if topupFlag.value {
        var raised := CompleteWalletTopup(payment, ledger, notifyKwargs);
        if raised {
          return SettledRaised;
        }
      }
      payment.MarkAsCompleted(now, "");
      o := SettledCompleted;
    case ProviderFailure =>
      payment.MarkAsFailed(PROVIDER_FAILED);
      o := SettledFailed;
    case ProviderOther =>
      o := SettledUnchanged;
  }

  // ---------------------------------------------------------------------
  // Polling
  // ---------------------------------------------------------------------

  /**
   * `verify_mtn_payment` / `verify_orange_payment`: the reported status.
   * `auth` is the token or authentication call, `query` the status request,
   * `statusText` the status field of its body.
   */
  function VerifySpec(a: Snapshot, amount: real, reference: string, provider: Provider, auth: Call, query: Call,
                      statusText: string, topupFlag: Option<bool>, notifyKwargs: set<string>, now: int)
    : (Snapshot, string)
  {
    if !IsOk(auth) || !IsOk(query) then (a, Payments.PROCESSING)
    else
      var (b, o) := Settle(a, amount, reference, VerdictOf(provider, statusText), topupFlag, notifyKwargs, now);
      (b, if o == SettledCompleted then Payments.COMPLETED else if o == SettledFailed then Payments.FAILED
          else Payments.PROCESSING)
  }

  /** The reply names the state the payment is left in, and an unreachable provider changes nothing. */
  lemma VerifyReportsState(a: Snapshot, amount: real, reference: string, provider: Provider, auth: Call, query: Call,
                           statusText: string, topupFlag: Option<bool>, notifyKwargs: set<string>, now: int)
    ensures var (b, reply) := VerifySpec(a, amount, reference, provider, auth, query, statusText, topupFlag,
                                         notifyKwargs, now);
            (reply == Payments.COMPLETED ==> b.payment.status == Payments.COMPLETED)
            && (reply == Payments.FAILED ==> b.payment.status == Payments.FAILED)
            && (reply == Payments.PROCESSING ==> b.payment == a.payment)
            && (!IsOk(auth) || !IsOk(query) ==> b == a)
            && reply in {Payments.COMPLETED, Payments.FAILED, Payments.PROCESSING}
  {
  }

  method VerifyPayment(payment: Payments.Payment, ledger: Ledger, provider: Provider, auth: Call, query: Call,
                       statusText: string, topupFlag: Option<bool>, notifyKwargs: set<string>, now: int)
    returns (reply: string)
    modifies payment, payment.user, ledger
    ensures payment.user.State() == old(payment.user.State()).(walletBalance := payment.user.walletBalance)
    ensures (Snapshot(payment.user.walletBalance, payment.State(), ledger.rows), reply)
            == VerifySpec(Snapshot(old(payment.user.walletBalance), old(payment.State()), old(ledger.rows)),
                          payment.amount, payment.paymentReference, provider, auth, query, statusText, topupFlag,
                          notifyKwargs, now)
  {
    if !IsOk(auth) || !IsOk(query) {
      return Payments.PROCESSING;
    }
    var o := SettlePayment(payment, ledger, VerdictOf(provider, statusText), topupFlag, notifyKwargs, now);
    reply := if o == SettledCompleted then Payments.COMPLETED else if o == SettledFailed then Payments.FAILED
             else Payments.PROCESSING;
  }

  datatype Route = ReportCompleted | ReportFailed | Query(provider: Provider) | ReportProcessing | ReportPending

  /** `payment_verification`'s dispatch on the stored status and method. */
  function VerificationRoute(status: string, paymentMethod: string): (r: Route)
    ensures r.Query? ==> status == Payments.PROCESSING
    ensures r == ReportCompleted <==> status == Payments.COMPLETED
    ensures r == ReportFailed <==> status == Payments.FAILED
    ensures r == ReportPending <==> status !in {Payments.COMPLETED, Payments.FAILED, Payments.PROCESSING}
  {
    if status == Payments.COMPLETED then ReportCompleted
    else if status == Payments.FAILED then ReportFailed
    else if status == Payments.PROCESSING then
      if paymentMethod == Payments.MTN_MOMO then Query(Mtn)
      else if paymentMethod == Payments.ORANGE_MONEY then Query(Orange)
      else ReportProcessing
    else ReportPending
  }

  /** A provider is asked only about a processing mobile-money payment. */
  lemma VerificationQueriesOnlyWhileProcessing(status: string, paymentMethod: string)
    ensures VerificationRoute(status, paymentMethod).Query? <==>
              status == Payments.PROCESSING && paymentMethod in {Payments.MTN_MOMO, Payments.ORANGE_MONEY}
  {
  }

  /** `payment_verification`: the reported status word. */
  method PaymentVerification(payment: Payments.Payment, ledger: Ledger, auth: Call, query: Call, statusText: string,
                             topupFlag: Option<bool>, notifyKwargs: set<string>, now: int) returns (reply: string)
    modifies payment, payment.user, ledger
    ensures payment.user.State() == old(payment.user.State()).(walletBalance := payment.user.walletBalance)
    ensures var route := VerificationRoute(old(payment.status), payment.paymentMethod);
            var a := Snapshot(old(payment.user.walletBalance), old(payment.State()), old(ledger.rows));
            var b := Snapshot(payment.user.walletBalance, payment.State(), ledger.rows);
            (route.Query? ==> (b, reply) == VerifySpec(a, payment.amount, payment.paymentReference, route.provider,
                                                       auth, query, statusText, topupFlag, notifyKwargs, now))
            && (!route.Query? ==> b == a)
            && (route == ReportCompleted ==> reply == Payments.COMPLETED)
            && (route == ReportFailed ==> reply == Payments.FAILED)
            && (route == ReportProcessing ==> reply == Payments.PROCESSING)
            && (route == ReportPending ==> reply == Payments.PENDING)
  {
    var route := VerificationRoute(payment.status, payment.paymentMethod);
    match route
    case ReportCompleted => reply := Payments.COMPLETED;
    case ReportFailed => reply := Payments.FAILED;
    case ReportProcessing => reply := Payments.PROCESSING;
    case ReportPending => reply := Payments.PENDING;
    case Query(p) => reply := VerifyPayment(payment, ledger, p, auth, query, statusText, topupFlag, notifyKwargs, now);
  }

  // ---------------------------------------------------------------------
  // Webhooks
  // ---------------------------------------------------------------------

  /** The keyword names `PaymentWebhook(...)` accepts; the `payment` foreign key is required. */
  const WEBHOOK_FIELDS: set<string> :=
    {"id", "pk", "payment", "payment_id", "provider", "webhook_data", "processed", "created_at", "processed_at"}

  predicate WebhookStoreAccepts(kwargs: set<string>)
  {
    kwargs <= WEBHOOK_FIELDS && ("payment" in kwargs || "payment_id" in kwargs)
  }

  /** What both webhooks pass. */
  const WEBHOOK_KWARGS: set<string> := {"provider", "event_type", "data"}

  /**
   * `mtn_webhook` / `orange_webhook`: the HTTP status. `bodyIsJson` is
   * whether the body parses; `reference` the reference field (empty when
   * absent); `found` whether a payment has that transaction id.
   */
  function WebhookSpec(storeKwargs: set<string>, bodyIsJson: bool, reference: string, found: bool, a: Snapshot,
                       amount: real, paymentReference: string, provider: Provider, statusText: string,
                       topupFlag: Option<bool>, notifyKwargs: set<string>, now: int): (Snapshot, int)
  {
    if !bodyIsJson || !WebhookStoreAccepts(storeKwargs) then (a, 500)
    else if reference == "" || !found then (a, 200)
    else
      var (b, o) := Settle(a, amount, paymentReference, VerdictOf(provider, statusText), topupFlag, notifyKwargs, now);
      (b, if o == SettledRaised then 500 else 200)
  }

  /** As written the webhook record is refused before anything is read, so every call answers 500 and changes nothing. */
  lemma WebhookAsWrittenNeverProcesses(bodyIsJson: bool, reference: string, found: bool, a: Snapshot, amount: real,
                                       paymentReference: string, provider: Provider, statusText: string,
                                       topupFlag: Option<bool>, notifyKwargs: set<string>, now: int)
    ensures WebhookSpec(WEBHOOK_KWARGS, bodyIsJson, reference, found, a, amount, paymentReference, provider,
                        statusText, topupFlag, notifyKwargs, now) == (a, 500)
  {
    assert "event_type" in WEBHOOK_KWARGS && "event_type" !in WEBHOOK_FIELDS;
  }

  /** The record the webhooks evidently mean to store: the payment, the provider and the body. */
  const INTENDED_WEBHOOK_KWARGS: set<string> := {"payment", "provider", "webhook_data"}

  /**
   * With an accepted record: an unknown or missing reference changes nothing
   * and answers OK; the provider's words complete or fail the payment as
   * polling does; any other word changes nothing.
   */
  lemma WebhookIntended(bodyIsJson: bool, reference: string, found: bool, a: Snapshot, amount: real,
                        paymentReference: string, provider: Provider, statusText: string, transactionType: string,
                        now: int)
    requires bodyIsJson
    ensures WebhookStoreAccepts(INTENDED_WEBHOOK_KWARGS)
    ensures var (b, code) := WebhookSpec(INTENDED_WEBHOOK_KWARGS, bodyIsJson, reference, found, a, amount,
                                         paymentReference, provider, statusText, TopupFlag(transactionType),
                                         Notifications.INTENDED_KWARGS, now);
            code == 200
            && ((reference == "" || !found) ==> b == a)
            && (reference != "" && found ==>
                  (VerdictOf(provider, statusText) == ProviderSuccess ==> Payments.IsSuccessful(b.payment))
                  && (VerdictOf(provider, statusText) == ProviderFailure ==> b.payment.status == Payments.FAILED)
                  && (VerdictOf(provider, statusText) == ProviderOther ==> b == a))
  {
    Notifications.CallerKwargsRejected();
  }

  /**
   * The webhook handler. `isPost` is whether the request is a POST (any
   * other method is refused with 405 by `require_http_methods`); `payment`
   * is the lookup by transaction id (null when there is none).
   */
  method Webhook(isPost: bool, storeKwargs: set<string>, bodyIsJson: bool, reference: string, payment: Payments.Payment?,
                 ledger: Ledger, provider: Provider, statusText: string, topupFlag: Option<bool>,
                 notifyKwargs: set<string>, now: int) returns (code: int)
    modifies ledger, payment, if payment != null then {payment.user} else {}
    ensures payment != null ==> payment.user.State() == old(payment.user.State()).(walletBalance := payment.user.walletBalance)
    ensures !isPost ==> code == 405 && ledger.rows == old(ledger.rows)
                        && (payment != null ==> payment.State() == old(payment.State())
                                                && payment.user.State() == old(payment.user.State()))
    ensures isPost && payment == null ==> code == (if bodyIsJson && WebhookStoreAccepts(storeKwargs) then 200 else 500)
                                          && ledger.rows == old(ledger.rows)
    ensures isPost && payment != null ==>
              (Snapshot(payment.user.walletBalance, payment.State(), ledger.rows), code)
              == WebhookSpec(storeKwargs, bodyIsJson, reference, true,
                             Snapshot(old(payment.user.walletBalance), old(payment.State()), old(ledger.rows)),
                             payment.amount, payment.paymentReference, provider, statusText, topupFlag,
                             notifyKwargs, now)
  {
    if !isPost {
      // `require_http_methods(["POST"])` answers before the view runs.
      return 405;
    }
    if !bodyIsJson || !WebhookStoreAccepts(storeKwargs) {
      return 500;
    }
    if reference == "" || payment == null {
      return 200;
    }
    var o := SettlePayment(payment, ledger, VerdictOf(provider, statusText), topupFlag, notifyKwargs, now);
    code := if o == SettledRaised then 500 else 200;
  }

  // ---------------------------------------------------------------------
  // Top-up form
  // ---------------------------------------------------------------------

  const MIN_TOPUP: real := 100.0
  const MAX_TOPUP: real := 1000000.0

  datatype TopupCheck =
    | TopupAccepted(phone: string)
    | InvalidAmount | BelowMinimum | AboveMaximum | InvalidMethod | PhoneRequired
    | BadAmount        // the amount is not a decimal: the handler answers 500

  /** Spaces and dashes removed; '+237' prefixed unless the number already starts with '+'. */
  function NormalizePhone(phone: string): (r: string)
    ensures ' ' !in r && '-' !in r
    ensures StartsWith(r, "+")
  {
    var c := WithoutSeparators(phone);
    if StartsWith(c, "+") then c else "+237" + c
  }

  /** The number with its spaces and dashes deleted. */
  function WithoutSeparators(phone: string): (c: string)
    ensures ' ' !in c && '-' !in c
  {
    var c := RemoveChar(RemoveChar(phone, ' '), '-');
    assert ' ' !in c;
    c
  }

  /** Normalising a normalised number changes nothing. */
  lemma NormalizePhoneIdempotent(phone: string)
    ensures NormalizePhone(NormalizePhone(phone)) == NormalizePhone(phone)
  {
    var n := NormalizePhone(phone);
    RemoveCharAbsent(n, ' ');
    RemoveCharAbsent(n, '-');
  }

  /** A number already free of spaces and dashes gets the country code unless it starts with '+'. */
  lemma NormalizeCleanPhone(phone: string)
    requires ' ' !in phone && '-' !in phone
    ensures StartsWith(phone, "+") ==> NormalizePhone(phone) == phone
    ensures !StartsWith(phone, "+") ==> NormalizePhone(phone) == "+237" + phone
  {
    RemoveCharAbsent(phone, ' ');
    RemoveCharAbsent(phone, '-');
  }

  /**
   * A space or dash anywhere in the number is ignored: with this and
   * `NormalizeCleanPhone` the other characters are kept, in order.
   */
  lemma NormalizeIgnoresSeparator(before: string, after: string, sep: char)
    requires sep == ' ' || sep == '-'
    ensures NormalizePhone(before + [sep] + after) == NormalizePhone(before + after)
  {
    SeparatorDropped(before, after, sep);
  }

  lemma SeparatorDropped(before: string, after: string, sep: char)
    requires sep == ' ' || sep == '-'
    ensures WithoutSeparators(before + [sep] + after) == WithoutSeparators(before + after)
  {
    if sep == ' ' {
      SpaceIgnored(before, after);
    } else {
      DashIgnored(before, after);
    }
  }

  lemma SpaceIgnored(before: string, after: string)
    ensures WithoutSeparators(before + " " + after) == WithoutSeparators(before + after)
  {
    SpaceDeleted(before, after);
  }

  lemma SpaceDeleted(before: string, after: string)
    ensures RemoveChar(before + " " + after, ' ') == RemoveChar(before + after, ' ')
  {
    RemoveCharAround(before, ' ', after, ' ');
    RemoveCharConcat(before, after, ' ');
    assert RemoveChar(before, ' ') + [] == RemoveChar(before, ' ');
  }

  lemma DashIgnored(before: string, after: string)
    ensures WithoutSeparators(before + "-" + after) == WithoutSeparators(before + after)
  {
    SpacesDeleted(before, '-', after);
    var b1, a1 := RemoveChar(before, ' '), RemoveChar(after, ' ');
    assert RemoveChar(before + "-" + after, ' ') == b1 + "-" + a1;
    DashDeleted(b1, a1);
  }

  lemma SpacesDeleted(before: string, x: char, after: string)
    ensures RemoveChar(before + [x] + after, ' ')
            == RemoveChar(before, ' ') + (if x == ' ' then [] else [x]) + RemoveChar(after, ' ')
    ensures RemoveChar(before + after, ' ') == RemoveChar(before, ' ') + RemoveChar(after, ' ')
  {
    RemoveCharAround(before, x, after, ' ');
    RemoveCharConcat(before, after, ' ');
  }

  lemma DashDeleted(before: string, after: string)
    ensures RemoveChar(before + "-" + after, '-') == RemoveChar(before + after, '-')
  {
    RemoveCharAround(before, '-', after, '-');
    RemoveCharConcat(before, after, '-');
    assert RemoveChar(before, '-') + [] == RemoveChar(before, '-');
  }

  /** The number keeps every character other than a space or dash, each as often as before. */
  lemma NormalizeKeepsCharacters(phone: string)
    ensures var c := WithoutSeparators(phone);
            multiset(c) == multiset(phone)[' ' := 0]['-' := 0]
            && (NormalizePhone(phone) == c || NormalizePhone(phone) == "+237" + c)
  {
  }

  /** The checks of the top-up form at line 346, in order; None for the amount is an unparsable decimal. */
  function ValidateTopup(amount: Option<real>, paymentMethod: string, phone: string): (r: TopupCheck)
    ensures r.TopupAccepted? ==> r.phone == NormalizePhone(phone)
  {
    if amount.None? then BadAmount
    else if amount.value <= 0.0 then InvalidAmount
    else if amount.value < MIN_TOPUP then BelowMinimum
    else if amount.value > MAX_TOPUP then AboveMaximum
    else if paymentMethod != Payments.MTN_MOMO && paymentMethod != Payments.ORANGE_MONEY then InvalidMethod
    else if phone == "" then PhoneRequired
    else TopupAccepted(NormalizePhone(phone))
  }

  /** Accepted exactly for 100 to 1,000,000 inclusive, one of the two providers and a non-empty phone. */
  lemma ValidateTopupSpec(amount: Option<real>, paymentMethod: string, phone: string)
    ensures ValidateTopup(amount, paymentMethod, phone).TopupAccepted? <==>
              amount.Some? && MIN_TOPUP <= amount.value <= MAX_TOPUP
              && paymentMethod in {Payments.MTN_MOMO, Payments.ORANGE_MONEY} && phone != ""
    ensures amount.Some? && 0.0 < amount.value < MIN_TOPUP ==> ValidateTopup(amount, paymentMethod, phone) == BelowMinimum
    ensures amount.Some? && amount.value > MAX_TOPUP ==> ValidateTopup(amount, paymentMethod, phone) == AboveMaximum
  {
  }
}

/**
 * Notification records and delivery decisions.
 *
 * `Notification.objects.create(**kwargs)` succeeds only when every keyword
 * names a column of the Notification model and the required `target_user`
 * is given; any other keyword raises TypeError. Every caller passes its own
 * keyword set, so the model takes that set as a value and decides from it.
 *
 * The `UserNotification` and `NotificationPreference` records that
 * `send_notification` also touches are names the module never defines; their
 * outcomes are inputs here (`userNotification`, `storedPrefs`).
 */
module Notifications {
  import opened Common

  /** The keyword names `Notification(...)` accepts: its columns, the foreign key's attname and `pk`. */
  const NOTIFICATION_FIELDS: set<string> :=
    {"id", "pk", "target_user", "target_user_id", "title", "message", "notification_type", "is_read", "created_at"}

  /** Whether creating a Notification with these keywords stores a row (else it raises). */
  predicate CreateAccepts(kwargs: set<string>)
  {
    kwargs <= NOTIFICATION_FIELDS && ("target_user" in kwargs || "target_user_id" in kwargs)
  }

  // The keyword sets the callers pass.
  const SEND_NOTIFICATION_KWARGS: set<string> :=
    {"user", "title", "message", "notification_type", "priority", "action_url", "action_text"}
  const ORDER_PLACED_KWARGS: set<string> :=
    {"title", "message", "notification_type", "priority", "target_audience", "order", "created_by"}
  const ORDER_VALIDATED_KWARGS: set<string> :=
    {"title", "message", "notification_type", "priority", "target_audience", "target_user", "order", "created_by"}
  const ORDER_STATUS_KWARGS: set<string> :=
    {"title", "message", "notification_type", "target_user", "priority", "order", "created_by"}
  const TOPUP_NOTIFICATION_KWARGS: set<string> :=
    {"user", "title", "message", "notification_type"}

  /** The same notification written with the model's own column names. */
  const INTENDED_KWARGS: set<string> := {"target_user", "title", "message", "notification_type"}

  /** None of the callers' keyword sets is accepted, while the intended one is. */
  lemma CallerKwargsRejected()
    ensures !CreateAccepts(SEND_NOTIFICATION_KWARGS)
    ensures !CreateAccepts(ORDER_PLACED_KWARGS)
    ensures !CreateAccepts(ORDER_VALIDATED_KWARGS)
    ensures !CreateAccepts(ORDER_STATUS_KWARGS)
    ensures !CreateAccepts(TOPUP_NOTIFICATION_KWARGS)
    ensures CreateAccepts(INTENDED_KWARGS)
  {
    assert "user" in SEND_NOTIFICATION_KWARGS && "user" !in NOTIFICATION_FIELDS;
    assert "priority" in ORDER_PLACED_KWARGS && "priority" !in NOTIFICATION_FIELDS;
    assert "priority" in ORDER_VALIDATED_KWARGS;
    assert "priority" in ORDER_STATUS_KWARGS;
    assert "user" in TOPUP_NOTIFICATION_KWARGS;
  }

  // ---------------------------------------------------------------------
  // Preference gate
  // ---------------------------------------------------------------------

  datatype Preferences = Preferences(
    emailEnabled: bool,
    pushEnabled: bool,
    orderNotifications: bool,
    paymentNotifications: bool,
    menuNotifications: bool,
    systemNotifications: bool)

  /** The preferences created for a user who has none: everything on. */
  const DEFAULT_PREFERENCES: Preferences := Preferences(true, true, true, true, true, true)

  /** `send_notification`'s `should_send` if/elif chain. */
  function ShouldSend(notificationType: string, p: Preferences): (r: bool)
    ensures !r <==> (notificationType == "order" && !p.orderNotifications)
                    || (notificationType == "payment" && !p.paymentNotifications)
                    || (notificationType == "menu" && !p.menuNotifications)
                    || (notificationType == "system" && !p.systemNotifications)
  {
    if notificationType == "order" then p.orderNotifications
    else if notificationType == "payment" then p.paymentNotifications
    else if notificationType == "menu" then p.menuNotifications
    else if notificationType == "system" then p.systemNotifications
    else true
  }

  /** Types outside the four gated ones always pass; with default preferences everything passes. */
  lemma GateSpec(notificationType: string, p: Preferences)
    ensures notificationType !in {"order", "payment", "menu", "system"} ==> ShouldSend(notificationType, p)
    ensures ShouldSend(notificationType, DEFAULT_PREFERENCES)
  {
  }

  /** What one `send_notification` call did. */
  datatype SendOutcome = SendOutcome(
    notificationCreated: bool,     // a Notification row was stored
    returned: Option<int>,         // the returned UserNotification, None when an exception was caught
    emailSent: bool)

  /**
   * `send_notification`. `kwargs` is the keyword set it passes to
   * Notification; `userNotification` is the outcome of creating the
   * UserNotification (None when that raises); `storedPrefs` is the user's
   * preference row, if any; `hasEmail` is whether the user's email is non-empty.
   */
  function SendNotification(kwargs: set<string>, userNotification: Option<int>, storedPrefs: Option<Preferences>,
                            notificationType: string, hasEmail: bool): (r: SendOutcome)
    ensures r.returned.Some? <==> CreateAccepts(kwargs) && userNotification.Some?
    ensures r.returned.Some? ==> r.returned == userNotification
    ensures r.notificationCreated <==> CreateAccepts(kwargs)
    ensures r.emailSent <==>
              r.returned.Some?
              && ShouldSend(notificationType, if storedPrefs.Some? then storedPrefs.value else DEFAULT_PREFERENCES)
              && (if storedPrefs.Some? then storedPrefs.value else DEFAULT_PREFERENCES).emailEnabled
              && hasEmail
  {
    if !CreateAccepts(kwargs) then SendOutcome(false, None, false)
    else if userNotification.None? then SendOutcome(true, None, false)
    else
      var prefs := if storedPrefs.Some? then storedPrefs.value else DEFAULT_PREFERENCES;
      var send := ShouldSend(notificationType, prefs);
      SendOutcome(true, userNotification, send && prefs.emailEnabled && hasEmail)
  }

  /** The record is stored whether or not the gate passes; the gate only decides delivery. */
  lemma RecordIndependentOfGate(kwargs: set<string>, un: Option<int>, p1: Preferences, p2: Preferences,
                                notificationType: string, hasEmail: bool)
    ensures SendNotification(kwargs, un, Some(p1), notificationType, hasEmail).notificationCreated
            == SendNotification(kwargs, un, Some(p2), notificationType, hasEmail).notificationCreated
    ensures SendNotification(kwargs, un, Some(p1), notificationType, hasEmail).returned
            == SendNotification(kwargs, un, Some(p2), notificationType, hasEmail).returned
  {
  }

  /** As written, `send_notification` passes keywords Notification has no column for, so it always returns None. */
  lemma SendNotificationAsWrittenReturnsNone(un: Option<int>, prefs: Option<Preferences>, t: string, hasEmail: bool)
    ensures SendNotification(SEND_NOTIFICATION_KWARGS, un, prefs, t, hasEmail) == SendOutcome(false, None, false)
  {
    CallerKwargsRejected();
  }

  // ---------------------------------------------------------------------
  // Bulk sending
  // ---------------------------------------------------------------------

  /** The per-user inputs of one `send_notification` call inside a bulk send. */
  datatype Recipient = Recipient(userNotification: Option<int>, storedPrefs: Option<Preferences>, hasEmail: bool)

  function Returned(kwargs: set<string>, u: Recipient, notificationType: string): bool
  {
    SendNotification(kwargs, u.userNotification, u.storedPrefs, notificationType, u.hasEmail).returned.Some?
  }

  /** How many of the recipients got a non-None result. */
  function CountReturned(kwargs: set<string>, users: seq<Recipient>, notificationType: string): (n: nat)
    ensures n <= |users|
  {
    if |users| == 0 then 0
    else CountReturned(kwargs, users[..|users| - 1], notificationType)
         + (if Returned(kwargs, users[|users| - 1], notificationType) then 1 else 0)
  }

  /** `send_bulk_notification`: counts the users for whom `send_notification` returned a record. */
  method SendBulkNotification(kwargs: set<string>, users: seq<Recipient>, notificationType: string)
    returns (created: nat)
    ensures created == CountReturned(kwargs, users, notificationType)
    ensures created <= |users|
  {
    created := 0;
    var i := 0;
    while i < |users|
      invariant 0 <= i <= |users|
      invariant created == CountReturned(kwargs, users[..i], notificationType)
    {
      assert users[..i + 1][..i] == users[..i];
      if Returned(kwargs, users[i], notificationType) {
        created := created + 1;
      }
      i := i + 1;
    }
    assert users[..i] == users;
  }

  /** Every recipient is counted exactly when record creation is accepted and its UserNotification exists. */
  lemma {:induction false} CountReturnedSpec(kwargs: set<string>, users: seq<Recipient>, t: string)
    ensures !CreateAccepts(kwargs) ==> CountReturned(kwargs, users, t) == 0
    ensures CreateAccepts(kwargs) && (forall i :: 0 <= i < |users| ==> users[i].userNotification.Some?)
            ==> CountReturned(kwargs, users, t) == |users|
  {
    if |users| > 0 {
      CountReturnedSpec(kwargs, users[..|users| - 1], t);
    }
  }

  // ---------------------------------------------------------------------
  // Titles
  // ---------------------------------------------------------------------

  /** `send_order_notification`'s title by event, and the type it always sends. */
  function OrderNotificationTitle(kind: string): (title: string)
    ensures kind == "order_confirmed" ==> title == "Order Confirmed"
    ensures kind == "order_ready" ==> title == "Order Ready"
    ensures kind == "order_cancelled" ==> title == "Order Cancelled"
    ensures kind == "order_delayed" ==> title == "Order Delayed"
    ensures kind !in {"order_confirmed", "order_ready", "order_cancelled", "order_delayed"} ==> title == "Order Update"
  {
    if kind == "order_confirmed" then "Order Confirmed"
    else if kind == "order_ready" then "Order Ready"
    else if kind == "order_cancelled" then "Order Cancelled"
    else if kind == "order_delayed" then "Order Delayed"
    else "Order Update"
  }

  const ORDER_NOTIFICATION_TYPE: string := "order"
  const PAYMENT_NOTIFICATION_TYPE: string := "payment"

  /**
   * `send_order_notification`, given whether the order object has the `customer`
   * attribute it reads first (the Order model calls that column `employee`).
   */
  function SendOrderNotification(orderHasCustomer: bool, kind: string, kwargs: set<string>,
                                 recipient: Recipient): (r: Option<int>)
    ensures !orderHasCustomer ==> r.None?
    ensures orderHasCustomer ==>
              r == SendNotification(kwargs, recipient.userNotification, recipient.storedPrefs,
                                    ORDER_NOTIFICATION_TYPE, recipient.hasEmail).returned
  {
    if !orderHasCustomer then None
    else
      SendNotification(kwargs, recipient.userNotification, recipient.storedPrefs,
                       ORDER_NOTIFICATION_TYPE, recipient.hasEmail).returned
  }

  /** `send_payment_notification`'s title, given whether the payment is a wallet top-up. */
  function PaymentNotificationTitle(kind: string, isTopup: bool): (title: string)
    ensures kind == "payment_successful" ==> title == (if isTopup then "Wallet Top-up Successful" else "Payment Successful")
    ensures kind == "payment_failed" ==> title == (if isTopup then "Wallet Top-up Failed" else "Payment Failed")
    ensures kind == "low_balance" ==> title == "Low Wallet Balance"
    ensures kind !in {"payment_successful", "payment_failed", "low_balance"} ==> title == "Payment Update"
  {
    if kind == "payment_successful" then (if isTopup then "Wallet Top-up Successful" else "Payment Successful")
    else if kind == "payment_failed" then (if isTopup then "Wallet Top-up Failed" else "Payment Failed")
    else if kind == "low_balance" then "Low Wallet Balance"
    else "Payment Update"
  }

  /**
   * `send_payment_notification`. `topupFlag` is the result of reading the
   * payment's top-up marker: None when that attribute lookup raises.
   * `hasOrder` says whether the payment has an order; the message of a
   * success or failure that is not a top-up reads the order's number, which
   * raises for a payment without one.
   */
  function SendPaymentNotification(topupFlag: Option<bool>, hasOrder: bool, kind: string, kwargs: set<string>,
                                   recipient: Recipient): (r: Option<int>)
    ensures kind in {"payment_successful", "payment_failed"} && topupFlag.None? ==> r.None?
    ensures kind in {"payment_successful", "payment_failed"} && topupFlag == Some(false) && !hasOrder ==> r.None?
    ensures (kind !in {"payment_successful", "payment_failed"} || topupFlag == Some(true)
             || (topupFlag == Some(false) && hasOrder)) ==>
              r == SendNotification(kwargs, recipient.userNotification, recipient.storedPrefs,
                                    PAYMENT_NOTIFICATION_TYPE, recipient.hasEmail).returned
  {
    if kind in {"payment_successful", "payment_failed"} && (topupFlag.None? || (topupFlag == Some(false) && !hasOrder))
    then None
    else
      SendNotification(kwargs, recipient.userNotification, recipient.storedPrefs,
                       PAYMENT_NOTIFICATION_TYPE, recipient.hasEmail).returned
  }

  /** Whether a title is about a top-up is decided by the top-up flag alone, for both outcomes. */
  lemma PaymentTitleTopupOnlyFlag(kind: string)
    requires kind in {"payment_successful", "payment_failed"}
    ensures PaymentNotificationTitle(kind, true) != PaymentNotificationTitle(kind, false)
    ensures StartsWith(PaymentNotificationTitle(kind, true), "Wallet Top-up")
  {
  }
}

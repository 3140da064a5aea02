/**
 * The JSON payment endpoints. Every endpoint requires a signed-in user,
 * checks the HTTP method, runs, and signs the user out after the response
 * is built. Lookups by id are inputs (null when there is none).
 */
module PaymentApi {
  import opened Common
  import Accounts
  import Payments

  datatype Response = Response(code: int, message: string)

  datatype HttpMethod = Get | Post

  /** What `login_required` answers when nobody is signed in. */
  const LOGIN_REDIRECT: Response := Response(302, "")
  const METHOD_NOT_ALLOWED: Response := Response(405, "")

  class ApiSession {
    var signedIn: bool

    constructor (signedIn: bool)
      ensures this.signedIn == signedIn
    {
      this.signedIn := signedIn;
    }
  }

  // ---------------------------------------------------------------------
  // The decorators
  // ---------------------------------------------------------------------

  /** `logout_after_response`: the view's response, passed through, then the sign-out. */
  method LogoutAfterResponse(session: ApiSession, response: Response) returns (r: Response)
    modifies session
    ensures r == response && !session.signedIn
  {
    session.signedIn := false;
    r := response;
  }

  /**
   * The four decorators in their order: `login_required` outside, then the
   * sign-out wrapper, then the method check around the view's response.
   */
  function Decorated(signedIn: bool, httpMethod: HttpMethod, allowed: HttpMethod, view: Response): (r: Response)
    ensures !signedIn ==> r == LOGIN_REDIRECT
    ensures signedIn && httpMethod != allowed ==> r == METHOD_NOT_ALLOWED
    ensures signedIn && httpMethod == allowed ==> r == view
  {
    if !signedIn then LOGIN_REDIRECT else if httpMethod != allowed then METHOD_NOT_ALLOWED else view
  }

  // ---------------------------------------------------------------------
  // Detail and status
  // ---------------------------------------------------------------------

  /** The owner-or-staff test of `payment_detail` and `payment_status`. */
  predicate CanView(isOwner: bool, isStaff: bool)
  {
    isOwner || isStaff
  }

  const UNAUTHORIZED: string := "Unauthorized"
  const PAYMENT_NOT_FOUND: string := "Payment not found"
  const TRANSACTION_NOT_FOUND: string := "Transaction not found"

  /** `payment_detail` (by id) or `payment_status` (by transaction id): 404, 403 or 200. */
  function ShowPayment(found: bool, isOwner: bool, isStaff: bool, notFound: string): (r: Response)
  {
    if !found then Response(404, notFound)
    else if !CanView(isOwner, isStaff) then Response(403, UNAUTHORIZED)
    else Response(200, "")
  }

  /** A payment is shown exactly to its owner and to staff; a missing one is reported missing to anyone. */
  lemma ShowPaymentSpec(found: bool, isOwner: bool, isStaff: bool, notFound: string)
    ensures ShowPayment(found, isOwner, isStaff, notFound).code == 200 <==> found && (isOwner || isStaff)
    ensures !found ==> ShowPayment(found, isOwner, isStaff, notFound) == Response(404, notFound)
    ensures found && !isOwner && !isStaff ==> ShowPayment(found, isOwner, isStaff, notFound).code == 403
  {
  }

  /** The detail and status endpoints, decorated; they change nothing but the session. */
  method PaymentDetail(session: ApiSession, httpMethod: HttpMethod, requester: Accounts.User, isStaff: bool,
                       payment: Payments.Payment?, byTransactionId: bool) returns (r: Response)
    modifies session
    ensures r == Decorated(old(session.signedIn), httpMethod, Get,
                           ShowPayment(payment != null, payment != null && payment.user == requester, isStaff,
                                       if byTransactionId then TRANSACTION_NOT_FOUND else PAYMENT_NOT_FOUND))
    ensures !session.signedIn
  {
    if !session.signedIn {
      return LOGIN_REDIRECT;
    }
    var view := METHOD_NOT_ALLOWED;
    if httpMethod == Get {
      view := ShowPayment(payment != null, payment != null && payment.user == requester, isStaff,
                          if byTransactionId then TRANSACTION_NOT_FOUND else PAYMENT_NOT_FOUND);
    }
    r := LogoutAfterResponse(session, view);
  }

  // ---------------------------------------------------------------------
  // Refunds
  // ---------------------------------------------------------------------

  const REFUND_FORBIDDEN: string := "Only admins can process refunds"
  const REFUND_NOT_COMPLETED: string := "Only completed payments can be refunded"
  const REFUND_DONE: string := "Refund processed"

  /** `refund_payment` on the status: the response and the status it leaves. */
  function Refund(isStaff: bool, found: bool, status: string): (string, Response)
  {
    if !isStaff then (status, Response(403, REFUND_FORBIDDEN))
    else if !found then (status, Response(404, TRANSACTION_NOT_FOUND))
    else if status != Payments.COMPLETED then (status, Response(400, REFUND_NOT_COMPLETED))
    else (Payments.REFUNDED, Response(200, REFUND_DONE))
  }

  /**
   * Only staff can refund, and only a completed payment is refunded; every
   * refusal leaves the status as it was. A refunded payment cannot be
   * refunded again.
   */
  lemma RefundSpec(isStaff: bool, found: bool, status: string)
    ensures var (s, r) := Refund(isStaff, found, status);
            (r.code == 200 <==> isStaff && found && status == Payments.COMPLETED)
            && (r.code == 200 ==> s == Payments.REFUNDED)
            && (r.code != 200 ==> s == status)
            && (!isStaff ==> r.code == 403)
    ensures var (s, r) := Refund(isStaff, found, status);
            r.code == 200 ==> Refund(isStaff, found, s).1.code == 400
  {
  }

  /** The refund view, undecorated: only the status column may change. */
  method RefundPayment(isStaff: bool, payment: Payments.Payment?) returns (r: Response)
    modifies payment
    ensures payment != null ==>
              (payment.status, r) == Refund(isStaff, true, old(payment.status))
              && payment.State() == old(payment.State()).(status := payment.status)
    ensures payment == null ==> r == Refund(isStaff, false, "").1
  {
    if !isStaff {
      return Response(403, REFUND_FORBIDDEN);
    }
    if payment == null {
      return Response(404, TRANSACTION_NOT_FOUND);
    }
    if payment.status != Payments.COMPLETED {
      return Response(400, REFUND_NOT_COMPLETED);
    }
    payment.status := Payments.REFUNDED;
    r := Response(200, REFUND_DONE);
  }

  /** The decorated refund endpoint: a refused method or a missing sign-in refunds nothing. */
  method RefundEndpoint(session: ApiSession, httpMethod: HttpMethod, isStaff: bool, payment: Payments.Payment?)
    returns (r: Response)
    modifies session, payment
    ensures payment != null ==>
              var (s, view) := Refund(isStaff, true, old(payment.status));
              r == Decorated(old(session.signedIn), httpMethod, Post, view)
              && payment.status == (if old(session.signedIn) && httpMethod == Post then s else old(payment.status))
              && payment.State() == old(payment.State()).(status := payment.status)
    ensures payment == null ==>
              r == Decorated(old(session.signedIn), httpMethod, Post, Refund(isStaff, false, "").1)
    ensures !session.signedIn
  {
    if !session.signedIn {
      return LOGIN_REDIRECT;
    }
    var view := METHOD_NOT_ALLOWED;
    if httpMethod == Post {
      view := RefundPayment(isStaff, payment);
    }
    r := LogoutAfterResponse(session, view);
  }

  // ---------------------------------------------------------------------
  // Initiating a payment
  // ---------------------------------------------------------------------

  datatype DateTime = DateTime(year: nat, month: nat, day: nat, hour: nat, minute: nat, second: nat)

  predicate ValidDateTime(t: DateTime)
  {
    1 <= t.year <= 9999 && 1 <= t.month <= 12 && 1 <= t.day <= 31 && t.hour < 24 && t.minute < 60 && t.second < 60
  }

  /** A two-digit strftime field. */
  function Two(n: nat): string
  {
    ZeroPad(NatToString(n), 2)
  }

  /** `'%Y%m%d%H%M%S'`; the C library writes the year without padding. */
  function Stamp(t: DateTime): string
  {
    NatToString(t.year) + Two(t.month) + Two(t.day) + Two(t.hour) + Two(t.minute) + Two(t.second)
  }

  const TXN_PREFIX: string := "TXN"

  function TransactionId(t: DateTime): string
  {
    TXN_PREFIX + Stamp(t)
  }

  lemma TwoDigits(n: nat)
    requires n < 100
    ensures |Two(n)| == 2 && AllDigits(Two(n)) && DigitsValue(Two(n)) == n
  {
    if n >= 10 {
      assert NatToString(n / 10) == [DigitChar(n / 10)];
    }
    NatToStringRoundTrip(n);
    ZeroPadValue(NatToString(n), 2);
  }

  /** Where each field sits in a stamp whose year has four digits. */
  lemma StampLayout(y: string, m: string, d: string, h: string, mi: string, sec: string)
    requires |y| == 4 && |m| == 2 && |d| == 2 && |h| == 2 && |mi| == 2 && |sec| == 2
    ensures var x := y + m + d + h + mi + sec;
            |x| == 14 && x[..4] == y && x[4..6] == m && x[6..8] == d && x[8..10] == h && x[10..12] == mi
            && x[12..] == sec
  {
    var x := y + m + d + h + mi + sec;
    assert x[..4] == y;
    assert x[4..6] == m;
    assert x[6..8] == d;
    assert x[8..10] == h;
    assert x[10..12] == mi;
    assert x[12..] == sec;
  }

  /** A concatenation of digit strings is a digit string. */
  lemma DigitsConcat(a: string, b: string)
    requires AllDigits(a) && AllDigits(b)
    ensures AllDigits(a + b)
  {
    forall i | 0 <= i < |a + b|
      ensures IsDigit((a + b)[i])
    {
      if i >= |a| {
        assert (a + b)[i] == b[i - |a|];
      }
    }
  }

  /** For a four-digit year the stamp is fourteen digits. */
  lemma StampDigits(t: DateTime)
    requires ValidDateTime(t) && t.year >= 1000
    ensures |Stamp(t)| == 14 && AllDigits(Stamp(t))
  {
    Accounts.NatToStringFourDigits(t.year);
    TwoDigits(t.month);
    TwoDigits(t.day);
    TwoDigits(t.hour);
    TwoDigits(t.minute);
    TwoDigits(t.second);
    var y := NatToString(t.year);
    DigitsConcat(y, Two(t.month));
    DigitsConcat(y + Two(t.month), Two(t.day));
    DigitsConcat(y + Two(t.month) + Two(t.day), Two(t.hour));
    DigitsConcat(y + Two(t.month) + Two(t.day) + Two(t.hour), Two(t.minute));
    DigitsConcat(y + Two(t.month) + Two(t.day) + Two(t.hour) + Two(t.minute), Two(t.second));
  }

  /** For a four-digit year each field of the time sits at a fixed position of the stamp. */
  lemma StampFields(t: DateTime)
    requires ValidDateTime(t) && t.year >= 1000
    ensures var x := Stamp(t);
            |x| == 14 && x[..4] == NatToString(t.year) && x[4..6] == Two(t.month) && x[6..8] == Two(t.day)
            && x[8..10] == Two(t.hour) && x[10..12] == Two(t.minute) && x[12..] == Two(t.second)
  {
    Accounts.NatToStringFourDigits(t.year);
    TwoDigits(t.month);
    TwoDigits(t.day);
    TwoDigits(t.hour);
    TwoDigits(t.minute);
    TwoDigits(t.second);
    StampLayout(NatToString(t.year), Two(t.month), Two(t.day), Two(t.hour), Two(t.minute), Two(t.second));
  }

  /** For a four-digit year the id is 'TXN' and the fourteen-digit stamp. */
  lemma TransactionIdFields(t: DateTime)
    requires ValidDateTime(t) && t.year >= 1000
    ensures var id := TransactionId(t);
            |id| == 17 && id[..3] == TXN_PREFIX && id[3..] == Stamp(t) && AllDigits(id[3..])
  {
    StampDigits(t);
    var id := TransactionId(t);
    assert id[3..] == Stamp(t);
  }

  /** Ids from different seconds differ; two initiations within one second share an id. */
  lemma TransactionIdInjective(t1: DateTime, t2: DateTime)
    requires ValidDateTime(t1) && t1.year >= 1000 && ValidDateTime(t2) && t2.year >= 1000
    ensures TransactionId(t1) == TransactionId(t2) <==> t1 == t2
  {
    if TransactionId(t1) == TransactionId(t2) {
      TransactionIdFields(t1);
      TransactionIdFields(t2);
      assert Stamp(t1) == TransactionId(t1)[3..] == TransactionId(t2)[3..] == Stamp(t2);
      StampFields(t1);
      StampFields(t2);
      NatToStringRoundTrip(t1.year);
      NatToStringRoundTrip(t2.year);
      TwoDigits(t1.month);
      TwoDigits(t2.month);
      TwoDigits(t1.day);
      TwoDigits(t2.day);
      TwoDigits(t1.hour);
      TwoDigits(t2.hour);
      TwoDigits(t1.minute);
      TwoDigits(t2.minute);
      TwoDigits(t1.second);
      TwoDigits(t2.second);
    }
  }

  const AMOUNT_REQUIRED: string := "amount is required"
  const PAYMENT_INITIATED: string := "Payment initiated"
  /** Stands for the text of the decimal column's ValidationError. */
  const INVALID_DECIMAL: string := "value must be a decimal number"

  /** The JSON value found under "amount": absent, null, a number, a string, a boolean, or a list or object of `size` members. */
  datatype JsonAmount = Absent | Null | Number(x: real) | Text(s: string) | Flag(b: bool) | Collection(size: nat)

  /** Python truthiness of `data.get("amount")`. */
  predicate AmountGiven(amount: JsonAmount)
  {
    match amount
    case Absent => false
    case Null => false
    case Number(x) => x != 0.0
    case Text(s) => |s| > 0
    case Flag(b) => b
    case Collection(size) => size > 0
  }

  function Pow10(n: nat): (p: nat)
    ensures p >= 1
  {
    if n == 0 then 1 else 10 * Pow10(n - 1)
  }

  /** The position of the first '.' in `s`. */
  function FirstDot(s: string): (r: Option<nat>)
    ensures r.Some? ==> r.value < |s| && s[r.value] == '.' && forall k :: 0 <= k < r.value ==> s[k] != '.'
    ensures r.None? ==> forall k :: 0 <= k < |s| ==> s[k] != '.'
  {
    if |s| == 0 then None
    else if s[0] == '.' then Some(0)
    else match FirstDot(s[1..])
      case None => None
      case Some(k) => Some(k + 1)
  }

  /** The value of "digits", "digits.", ".digits" or "digits.digits"; None for anything else. */
  function UnsignedDecimal(s: string): Option<real>
  {
    match FirstDot(s)
    case None =>
      if |s| > 0 && AllDigits(s) then Some(DigitsValue(s) as real) else None
    case Some(i) =>
      var whole, fraction := s[..i], s[i + 1..];
      if |s| > 1 && AllDigits(whole) && AllDigits(fraction) then
        Some(DecimalValue(whole, fraction))
      else None
  }

  /** The value of the digits `whole` followed by the fractional digits `fraction`. */
  function DecimalValue(whole: string, fraction: string): real
    requires AllDigits(whole) && AllDigits(fraction)
  {
    DigitsValue(whole) as real + DigitsValue(fraction) as real / Pow10(|fraction|) as real
  }

  /**
   * `decimal.Decimal(s)` followed by the finiteness check of the decimal
   * column: surrounding whitespace is ignored, then an optional sign and
   * "digits[.digits]"; None stands for the ValidationError.
   */
  function ParseDecimal(s: string): Option<real>
  {
    var t := Strip(s);
    if |t| > 0 && (t[0] == '+' || t[0] == '-') then
      match UnsignedDecimal(t[1..])
      case None => None
      case Some(v) => Some(if t[0] == '-' then -v else v)
    else UnsignedDecimal(t)
  }

  /**
   * The decimal the amount column converts the value to when the row is
   * inserted (`DecimalField.to_python`): a number as it is, a string by
   * `ParseDecimal`, a boolean as 0 or 1; None for a list or an object.
   */
  function StoredAmount(amount: JsonAmount): Option<real>
  {
    match amount
    case Absent => None
    case Null => None
    case Number(x) => Some(x)
    case Text(s) => ParseDecimal(s)
    case Flag(b) => Some(if b then 1.0 else 0.0)
    case Collection(_) => None
  }

  /** A string of digits converts to its value. */
  lemma ParseDecimalWhole(a: string)
    requires |a| > 0 && AllDigits(a)
    ensures ParseDecimal(a) == Some(DigitsValue(a) as real)
  {
    assert IsDigit(a[0]) && IsDigit(a[|a| - 1]);
    ParseUnsigned(a);
    assert FirstDot(a).None? by {
      forall k | 0 <= k < |a| ensures a[k] != '.' { assert IsDigit(a[k]); }
    }
  }

  /** Digits, a dot and digits convert to the whole part plus the fraction. */
  lemma ParseDecimalFraction(a: string, b: string)
    requires |a| > 0 && AllDigits(a) && AllDigits(b)
    ensures ParseDecimal(a + "." + b) == Some(DecimalValue(a, b))
  {
    var s := a + "." + b;
    assert s[0] == a[0] && IsDigit(a[0]);
    assert !IsSpace(s[|s| - 1]) by {
      if |b| > 0 {
        assert s[|s| - 1] == b[|b| - 1] && IsDigit(b[|b| - 1]);
      }
    }
    ParseUnsigned(s);
    UnsignedFraction(a, b);
  }

  /** Without surrounding whitespace or a sign the string is read as it is. */
  lemma ParseUnsigned(s: string)
    requires |s| > 0 && IsDigit(s[0]) && !IsSpace(s[|s| - 1])
    ensures ParseDecimal(s) == UnsignedDecimal(s)
  {
    assert !IsSpace(s[0]);
    StripKeeps(s);
  }

  lemma UnsignedFraction(a: string, b: string)
    requires |a| > 0 && AllDigits(a) && AllDigits(b)
    ensures UnsignedDecimal(a + "." + b) == Some(DecimalValue(a, b))
  {
    var s := a + "." + b;
    assert s[..|a|] == a && s[|a| + 1..] == b;
    FirstDotAfterDigits(a, b);
  }

  lemma FirstDotAfterDigits(a: string, b: string)
    requires AllDigits(a)
    ensures FirstDot(a + "." + b) == Some(|a|)
  {
    var s := a + "." + b;
    forall k | 0 <= k < |a|
      ensures s[k] != '.'
    {
      assert s[k] == a[k] && IsDigit(a[k]);
    }
    assert s[|a|] == '.';
    var r := FirstDot(s);
    assert r.Some?;
  }

  /**
   * Truthiness and conversion disagree: the string "0" passes the amount
   * check and is stored as a zero amount, while the number 0 is refused.
   */
  lemma ZeroTextPassesCheck()
    ensures AmountGiven(Text("0")) && StoredAmount(Text("0")) == Some(0.0)
    ensures AmountGiven(Text("0.00")) && StoredAmount(Text("0.00")) == Some(0.0)
    ensures !AmountGiven(Number(0.0)) && !AmountGiven(Text(""))
  {
    assert AllDigits("0") && AllDigits("00");
    assert DigitsValue("0") == 0 && DigitsValue("00") == 0 by {
      assert "00"[..1] == "0";
    }
    ParseDecimalWhole("0");
    ParseDecimalFraction("0", "00");
    assert DecimalValue("0", "00") == 0.0;
    assert "0" + "." + "00" == "0.00";
  }

  /**
   * `initiate_payment`, undecorated: a body that is not JSON is refused with
   * the decoder's message (`bodyError`); a falsy amount is refused; otherwise
   * the insert converts the amount (`StoredAmount`), and a value that is not
   * a decimal is refused with the column's ValidationError; the insert itself
   * may raise (`createError`, its message), for instance because another
   * payment already holds the empty payment reference it leaves; otherwise a
   * pending payment is created.
   */
  method InitiatePayment(user: Accounts.User, bodyError: Option<string>, amount: JsonAmount, now: DateTime,
                         createError: Option<string>) returns (r: Response, payment: Payments.Payment?)
    ensures bodyError.Some? ==> r == Response(400, bodyError.value) && payment == null
    ensures bodyError.None? && !AmountGiven(amount) ==> r == Response(400, AMOUNT_REQUIRED) && payment == null
    ensures bodyError.None? && AmountGiven(amount) && StoredAmount(amount).None? ==>
              r == Response(400, INVALID_DECIMAL) && payment == null
    ensures bodyError.None? && AmountGiven(amount) && StoredAmount(amount).Some? && createError.Some? ==>
              r == Response(400, createError.value) && payment == null
    ensures bodyError.None? && AmountGiven(amount) && StoredAmount(amount).Some? && createError.None? ==>
              r == Response(201, PAYMENT_INITIATED) && payment != null && fresh(payment)
              && payment.user == user && payment.amount == StoredAmount(amount).value
              && payment.status == Payments.PENDING && payment.transactionId == TransactionId(now)
              && payment.processedAt.None? && payment.completedAt.None? && payment.retryCount == 0
  {
    if bodyError.Some? {
      return Response(400, bodyError.value), null;
    }
    if !AmountGiven(amount) {
      return Response(400, AMOUNT_REQUIRED), null;
    }
    var stored := StoredAmount(amount);
    if stored.None? {
      return Response(400, INVALID_DECIMAL), null;
    }
    if createError.Some? {
      return Response(400, createError.value), null;
    }
    payment := NewPendingPayment(user, stored.value, TransactionId(now));
    r := Response(201, PAYMENT_INITIATED);
  }

  /** The row `initiate_payment` inserts: pending, with the column defaults and the given transaction id. */
  method NewPendingPayment(user: Accounts.User, amount: real, transactionId: string) returns (payment: Payments.Payment)
    ensures fresh(payment) && payment.user == user && payment.amount == amount
    ensures payment.status == Payments.PENDING && payment.transactionId == transactionId
    ensures payment.processedAt.None? && payment.completedAt.None? && payment.retryCount == 0
  {
    payment := new Payments.Payment("", user, None, "", Payments.ORDER_PAYMENT, amount, "");
    payment.transactionId := transactionId;
  }

  /** The decorated initiation endpoint. */
  method InitiateEndpoint(session: ApiSession, httpMethod: HttpMethod, user: Accounts.User, bodyError: Option<string>,
                          amount: JsonAmount, now: DateTime, createError: Option<string>)
    returns (r: Response, payment: Payments.Payment?)
    modifies session
    ensures payment != null ==> old(session.signedIn) && httpMethod == Post && bodyError.None? && AmountGiven(amount)
                                && StoredAmount(amount).Some? && createError.None? && r.code == 201
    ensures !old(session.signedIn) ==> r == LOGIN_REDIRECT && payment == null
    ensures old(session.signedIn) && httpMethod != Post ==> r == METHOD_NOT_ALLOWED && payment == null
    ensures !session.signedIn
  {
    payment := null;
    if !session.signedIn {
      return LOGIN_REDIRECT, null;
    }
    var view := METHOD_NOT_ALLOWED;
    if httpMethod == Post {
      view, payment := InitiatePayment(user, bodyError, amount, now, createError);
    }
    r := LogoutAfterResponse(session, view);
  }
}

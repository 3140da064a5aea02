/**
 * The canteen's user account: role and status predicates, the display name,
 * the wallet balance, the employee-id scheme, and the login-security counters
 * with their time-based lock.
 *
 * A lock time and `now` are seconds; the caller supplies `now` where the
 * source reads the clock. Money is an exact `real`.
 */
module Accounts {
  import opened Common

  const ROLE_EMPLOYEE: string := "employee"
  const ROLE_CANTEEN_ADMIN: string := "canteen_admin"
  const ROLE_SYSTEM_ADMIN: string := "system_admin"
  const STATUS_ACTIVE: string := "active"

  // ---------------------------------------------------------------------
  // Role predicates
  // ---------------------------------------------------------------------

  predicate IsEmployee(role: string) { role == ROLE_EMPLOYEE }

  predicate IsCanteenAdmin(role: string) { role == ROLE_CANTEEN_ADMIN }

  /** A superuser counts as a system admin here, whatever its role. */
  predicate IsSystemAdmin(role: string, isSuperuser: bool) { role == ROLE_SYSTEM_ADMIN || isSuperuser }

  predicate CanPlaceOrders(role: string, status: string) { role == ROLE_EMPLOYEE && status == STATUS_ACTIVE }

  predicate CanManageOrders(role: string, status: string)
  {
    (role == ROLE_CANTEEN_ADMIN || role == ROLE_SYSTEM_ADMIN) && status == STATUS_ACTIVE
  }

  /** Unlike `IsSystemAdmin`, this one ignores the superuser flag. */
  predicate CanManageUsers(role: string, status: string) { role == ROLE_SYSTEM_ADMIN && status == STATUS_ACTIVE }

  /**
   * How the permissions relate: managing users implies managing orders;
   * ordering and managing orders exclude each other; none of them holds for
   * an account that is not active, and the superuser flag grants none of them.
   */
  lemma PermissionsRelate(role: string, status: string, isSuperuser: bool)
    ensures CanManageUsers(role, status) ==> CanManageOrders(role, status)
    ensures !(CanPlaceOrders(role, status) && CanManageOrders(role, status))
    ensures status != STATUS_ACTIVE ==>
              !CanPlaceOrders(role, status) && !CanManageOrders(role, status) && !CanManageUsers(role, status)
    ensures isSuperuser && role == ROLE_EMPLOYEE ==> IsSystemAdmin(role, isSuperuser) && !CanManageUsers(role, status)
    ensures CanPlaceOrders(role, status) <==> IsEmployee(role) && status == STATUS_ACTIVE
  {
  }

  /** `get_full_name`: the stripped "first last", or the username when that is empty. */
  function FullName(firstName: string, lastName: string, username: string): (r: string)
    ensures Strip(firstName + " " + lastName) == "" ==> r == username
    ensures Strip(firstName + " " + lastName) != "" ==> r == Strip(firstName + " " + lastName)
  {
    var joined := Strip(firstName + " " + lastName);
    if joined != "" then joined else username
  }

  /** Names made only of blanks fall back to the username; a name that has letters is never replaced. */
  lemma FullNameFallback(firstName: string, lastName: string, username: string)
    ensures (forall i :: 0 <= i < |firstName| ==> IsSpace(firstName[i]))
            && (forall i :: 0 <= i < |lastName| ==> IsSpace(lastName[i]))
            ==> FullName(firstName, lastName, username) == username
    ensures |firstName| > 0 && !IsSpace(firstName[0]) ==>
              FullName(firstName, lastName, username) != "" && FullName(firstName, lastName, username)[0] == firstName[0]
  {
    if (forall i :: 0 <= i < |firstName| ==> IsSpace(firstName[i]))
       && (forall i :: 0 <= i < |lastName| ==> IsSpace(lastName[i])) {
      BlankNameFallsBack(firstName, lastName, username);
    }
    if |firstName| > 0 && !IsSpace(firstName[0]) {
      NameKeepsFirstLetter(firstName, lastName, username);
    }
  }

  lemma BlankNameFallsBack(firstName: string, lastName: string, username: string)
    requires forall i :: 0 <= i < |firstName| ==> IsSpace(firstName[i])
    requires forall i :: 0 <= i < |lastName| ==> IsSpace(lastName[i])
    ensures FullName(firstName, lastName, username) == username
  {
    assert IsSpace(" "[0]);
    BlanksJoin(firstName, " ");
    BlanksJoin(firstName + " ", lastName);
    StripSpec(firstName + " " + lastName);
  }

  lemma BlanksJoin(a: string, b: string)
    requires forall i :: 0 <= i < |a| ==> IsSpace(a[i])
    requires forall i :: 0 <= i < |b| ==> IsSpace(b[i])
    ensures forall i :: 0 <= i < |a + b| ==> IsSpace((a + b)[i])
  {
    forall i | 0 <= i < |a + b| ensures IsSpace((a + b)[i]) {
      if i < |a| {
        assert (a + b)[i] == a[i];
      } else {
        assert (a + b)[i] == b[i - |a|];
      }
    }
  }

  lemma NameKeepsFirstLetter(firstName: string, lastName: string, username: string)
    requires |firstName| > 0 && !IsSpace(firstName[0])
    ensures FullName(firstName, lastName, username) != "" && FullName(firstName, lastName, username)[0] == firstName[0]
  {
    var s := firstName + " " + lastName;
    StripSpec(s);
    assert s[0] == firstName[0];
    assert StripLeft(s) == s;
    assert !IsSpace(s[0]);
    StripRightKeepsFirst(s);
  }

  lemma StripRightKeepsFirst(s: string)
    requires |s| > 0 && !IsSpace(s[0])
    ensures |StripRight(s)| > 0 && StripRight(s)[0] == s[0]
  {
  }

  // ---------------------------------------------------------------------
  // Wallet
  // ---------------------------------------------------------------------

  predicate HasSufficientBalance(balance: real, amount: real) { balance >= amount }

  /** `deduct_from_wallet`: the new balance and whether the debit happened. */
  function Deducted(balance: real, amount: real): (r: (real, bool))
    ensures r.1 <==> HasSufficientBalance(balance, amount)
    ensures r.1 ==> r.0 == balance - amount
    ensures !r.1 ==> r.0 == balance
  {
    if balance >= amount then (balance - amount, true) else (balance, false)
  }

  /** A non-negative balance stays non-negative, and a debit followed by the same credit restores it. */
  lemma DeductKeepsNonNegative(balance: real, amount: real)
    requires balance >= 0.0
    ensures Deducted(balance, amount).0 >= 0.0 || amount < 0.0
    ensures amount >= 0.0 ==> Deducted(balance, amount).0 >= 0.0
    ensures Deducted(balance, amount).1 ==> Deducted(balance, amount).0 + amount == balance
  {
  }

  // ---------------------------------------------------------------------
  // Employee id
  // ---------------------------------------------------------------------

  const EMPLOYEE_PREFIX: string := "EMP"
  const DEFAULT_YEAR: nat := 2024

  /** `f"EMP{year}{n:03d}"`. */
  function EmployeeId(year: nat, n: int): string
  {
    EMPLOYEE_PREFIX + NatToString(year) + FormatInt(n, 3)
  }

  /**
   * The number after the newest matching id: `int(last[7:]) + 1`, or 1 when
   * there is no matching user; None is the ValueError a non-numeric tail raises.
   */
  function NextEmployeeNumber(lastId: Option<string>): Option<int>
  {
    if lastId.None? then Some(1)
    else
      var p := IdNumber(lastId.value);
      if p.None? then None else Some(p.value + 1)
  }

  /** `int(id[7:])`: the number an id carries after "EMP" and a four-digit year. */
  function IdNumber(id: string): Option<int>
  {
    ParseInt(if |id| >= 7 then id[7..] else "")
  }

  lemma NatToStringFourDigits(year: nat)
    requires 1000 <= year <= 9999
    ensures |NatToString(year)| == 4
  {
    assert NatToString(year / 1000) == [DigitChar(year / 1000)];
    assert |NatToString(year / 100)| == 2;
    assert |NatToString(year / 10)| == 3;
  }

  /**
   * For a four-digit year the id's tail from position 7 is the formatted
   * number, so the id the scheme writes is read back as its own number and
   * the next one follows it; the id also carries the year prefix the lookup
   * filters by.
   */
  lemma EmployeeIdRoundTrip(year: nat, n: int)
    requires 1000 <= year <= 9999
    ensures |EmployeeId(year, n)| >= 7
    ensures ParseInt(EmployeeId(year, n)[7..]) == Some(n)
    ensures NextEmployeeNumber(Some(EmployeeId(year, n))) == Some(n + 1)
    ensures StartsWith(EmployeeId(year, n), EMPLOYEE_PREFIX + NatToString(year))
  {
    NatToStringFourDigits(year);
    var id := EmployeeId(year, n);
    assert id[7..] == FormatInt(n, 3);
    FormatParseRoundTrip(n, 3);
    assert id[..|EMPLOYEE_PREFIX + NatToString(year)|] == EMPLOYEE_PREFIX + NatToString(year);
  }

  lemma PadOne()
    ensures ZeroPad("1", 3) == "001"
  {
    var z := ZeroPad("1", 3);
    assert |z| == 3 && z[2..] == "1";
    assert z[0] == '0' && z[1] == '0' && z[2] == '1';
  }

  /** Number 1 is written "001". */
  lemma FormatOne()
    ensures FormatInt(1, 3) == "001"
  {
    assert NatToString(1) == "1";
    PadOne();
  }

  /** What `generate_employee_id` ends in. */
  datatype IdOutcome =
    | Kept(id: string)     // the account already had an id
    | Saved(id: string)    // a new id was assigned and stored
    | NotNumeric           // the last id's tail is not a number: ValueError
    | Taken(id: string)    // the new id is another account's: the save is refused

  /** The first id of a year is number 001. */
  lemma FirstEmployeeId(year: nat)
    ensures NextEmployeeNumber(None) == Some(1)
    ensures EmployeeId(year, 1) == EMPLOYEE_PREFIX + NatToString(year) + "001"
  {
    FormatOne();
  }

  // ---------------------------------------------------------------------
  // Choosing the last id
  // ---------------------------------------------------------------------

  /** Code-point order of strings, the order the database sorts a text column by. */
  predicate StringLess(a: string, b: string)
  {
    |b| > 0 && (|a| == 0 || a[0] < b[0] || (a[0] == b[0] && StringLess(a[1..], b[1..])))
  }

  lemma {:induction false} StringLessIrreflexive(a: string)
    ensures !StringLess(a, a)
  {
    if |a| > 0 {
      StringLessIrreflexive(a[1..]);
    }
  }

  lemma {:induction false} StringLessTransitive(a: string, b: string, c: string)
    requires StringLess(a, b) && StringLess(b, c)
    ensures StringLess(a, c)
  {
    if |a| > 0 && a[0] == b[0] && b[0] == c[0] {
      StringLessTransitive(a[1..], b[1..], c[1..]);
    }
  }

  /**
   * `filter(employee_id__startswith=prefix).order_by('-employee_id').first()`
   * over the stored ids: the matching id greatest in string order.
   */
  function LastIdAsWritten(ids: seq<string>, prefix: string): (r: Option<string>)
    ensures r.None? <==> forall id :: id in ids ==> !StartsWith(id, prefix)
    ensures r.Some? ==> r.value in ids && StartsWith(r.value, prefix)
                        && forall id :: id in ids && StartsWith(id, prefix) ==> !StringLess(r.value, id)
  {
    if |ids| == 0 then None
    else
      var rest := LastIdAsWritten(ids[1..], prefix);
      if !StartsWith(ids[0], prefix) then
        assert forall id :: id in ids ==> id == ids[0] || id in ids[1..];
        rest
      else if rest.None? || StringLess(rest.value, ids[0]) then
        forall id | id in ids && StartsWith(id, prefix)
          ensures !StringLess(ids[0], id)
        {
          StringLessIrreflexive(ids[0]);
          if rest.Some? && StringLess(ids[0], id) {
            StringLessTransitive(rest.value, ids[0], id);
          }
        }
        Some(ids[0])
      else
        assert forall id :: id in ids ==> id == ids[0] || id in ids[1..];
        rest
  }

  /**
   * Ids ordered as strings put "EMP2024999" after "EMP20241000", so once
   * number 1000 exists the lookup keeps finding 999 and the code builds
   * "EMP20241000" again: an id that is already taken by another user.
   */
  lemma StringOrderRepeatsId()
    ensures var ids := [EmployeeId(2024, 999), EmployeeId(2024, 1000)];
            var last := LastIdAsWritten(ids, EMPLOYEE_PREFIX + NatToString(2024));
            last == Some(EmployeeId(2024, 999))
            && NextEmployeeNumber(last) == Some(1000)
            && EmployeeId(2024, 1000) in ids
  {
    var a, b := EmployeeId(2024, 999), EmployeeId(2024, 1000);
    var prefix := EMPLOYEE_PREFIX + NatToString(2024);
    EmployeeIdRoundTrip(2024, 999);
    EmployeeIdRoundTrip(2024, 1000);
    NatToStringFourDigits(2024);
    assert a[7..] == NatToString(999) && b[7..] == NatToString(1000);
    NineBeforeOne();
    assert a[7] == '9' && b[7] == '1';
    assert a[..7] == b[..7] == prefix;
    StringLessAt(a, b, 7);
    var ids := [a, b];
    assert ids[1..] == [b];
    assert LastIdAsWritten([b], prefix) == Some(b);
  }

  lemma NineBeforeOne()
    ensures NatToString(999)[0] == '9' && NatToString(1000)[0] == '1'
    ensures ZeroPad(NatToString(999), 3) == NatToString(999)
    ensures ZeroPad(NatToString(1000), 3) == NatToString(1000)
  {
    assert NatToString(99)[0] == '9';
    assert NatToString(100)[0] == '1';
    assert |NatToString(99)| == 2 && |NatToString(100)| == 3;
  }

  /** Strings agreeing before position `k` are ordered by their characters at `k`. */
  lemma {:induction false} StringLessAt(a: string, b: string, k: nat)
    requires k < |a| && k < |b| && a[..k] == b[..k] && a[k] > b[k]
    ensures StringLess(b, a) && !StringLess(a, b)
  {
    if k > 0 {
      assert a[0] == a[..k][0] && b[0] == b[..k][0];
      assert a[1..][..k - 1] == a[..k][1..] && b[1..][..k - 1] == b[..k][1..];
      StringLessAt(a[1..], b[1..], k - 1);
    }
  }

  /** The numbers `int(id[7:])` of the ids that carry `prefix`, in their stored order. */
  function MatchingNumbers(ids: seq<string>, prefix: string): seq<Option<int>>
  {
    if |ids| == 0 then []
    else (if StartsWith(ids[0], prefix) then [IdNumber(ids[0])] else []) + MatchingNumbers(ids[1..], prefix)
  }

  /** Every matching id contributes its number. */
  lemma {:induction false} MatchingNumbersCover(ids: seq<string>, prefix: string)
    ensures forall id :: id in ids && StartsWith(id, prefix) ==> IdNumber(id) in MatchingNumbers(ids, prefix)
  {
    if |ids| > 0 {
      MatchingNumbersCover(ids[1..], prefix);
      assert forall id :: id in ids ==> id == ids[0] || id in ids[1..];
    }
  }

  /** Every number comes from a matching id. */
  lemma {:induction false} MatchingNumberSource(ids: seq<string>, prefix: string, k: nat) returns (w: string)
    requires k < |MatchingNumbers(ids, prefix)|
    ensures w in ids && StartsWith(w, prefix) && IdNumber(w) == MatchingNumbers(ids, prefix)[k]
  {
    var tail := MatchingNumbers(ids[1..], prefix);
    if StartsWith(ids[0], prefix) {
      assert MatchingNumbers(ids, prefix) == [IdNumber(ids[0])] + tail;
      if k == 0 {
        w := ids[0];
      } else {
        w := MatchingNumberSource(ids[1..], prefix, k - 1);
        assert w in ids[1..];
        assert MatchingNumbers(ids, prefix)[k] == tail[k - 1];
      }
    } else {
      assert MatchingNumbers(ids, prefix) == tail;
      w := MatchingNumberSource(ids[1..], prefix, k);
      assert w in ids[1..];
      assert MatchingNumbers(ids, prefix)[k] == tail[k];
    }
  }

  /** One more than the greatest number (1 for none); None when some number is missing. */
  function NextAfter(ns: seq<Option<int>>): (r: Option<int>)
    ensures r.None? <==> None in ns
    ensures r.Some? ==> r.value >= 1 && forall k :: 0 <= k < |ns| ==> ns[k].Some? && ns[k].value < r.value
  {
    if |ns| == 0 then Some(1)
    else
      var rest := NextAfter(ns[1..]);
      assert ns == [ns[0]] + ns[1..];
      assert forall k :: 1 <= k < |ns| ==> ns[k] == ns[1..][k - 1];
      if ns[0].None? || rest.None? then None
      else if ns[0].value + 1 > rest.value then Some(ns[0].value + 1)
      else rest
  }

  /** Above 1 the result is one past some number of the sequence. */
  lemma {:induction false} NextAfterTight(ns: seq<Option<int>>, r: int) returns (k: nat)
    requires NextAfter(ns) == Some(r) && r > 1
    ensures k < |ns| && ns[k] == Some(r - 1)
  {
    if ns[0] == Some(r - 1) {
      k := 0;
    } else {
      var j := NextAfterTight(ns[1..], r);
      k := j + 1;
    }
  }

  /**
   * The evidently intended lookup: one more than the greatest number any
   * matching id carries (1 when there is none); None is the ValueError of a
   * matching id whose tail is not a number.
   */
  function NextNumberIntended(ids: seq<string>, prefix: string): (r: Option<int>)
    ensures r.Some? ==> r.value >= 1
                        && forall id :: id in ids && StartsWith(id, prefix) ==>
                                          IdNumber(id).Some? && IdNumber(id).value < r.value
  {
    MatchingNumbersCover(ids, prefix);
    NextAfter(MatchingNumbers(ids, prefix))
  }

  /** The intended lookup raises exactly when some matching id's tail is not a number. */
  lemma NextNumberIntendedRaises(ids: seq<string>, prefix: string)
    ensures NextNumberIntended(ids, prefix).None? <==>
              exists id :: id in ids && StartsWith(id, prefix) && IdNumber(id).None?
  {
    var ns := MatchingNumbers(ids, prefix);
    MatchingNumbersCover(ids, prefix);
    if NextNumberIntended(ids, prefix).None? {
      var k :| 0 <= k < |ns| && ns[k] == None;
      var w := MatchingNumberSource(ids, prefix, k);
    }
  }

  /** Above 1 the number is exactly one more than the number of some matching id. */
  lemma NextNumberIntendedTight(ids: seq<string>, prefix: string)
    requires NextNumberIntended(ids, prefix).Some? && NextNumberIntended(ids, prefix).value > 1
    ensures exists id :: id in ids && StartsWith(id, prefix)
                         && IdNumber(id) == Some(NextNumberIntended(ids, prefix).value - 1)
  {
    var k := NextAfterTight(MatchingNumbers(ids, prefix), NextNumberIntended(ids, prefix).value);
    var w := MatchingNumberSource(ids, prefix, k);
  }

  /** With the intended lookup the generated id is not among the stored ones. */
  lemma IntendedIdIsFresh(ids: seq<string>, year: nat)
    requires 1000 <= year <= 9999
    requires NextNumberIntended(ids, EMPLOYEE_PREFIX + NatToString(year)).Some?
    ensures EmployeeId(year, NextNumberIntended(ids, EMPLOYEE_PREFIX + NatToString(year)).value) !in ids
  {
    var next := NextNumberIntended(ids, EMPLOYEE_PREFIX + NatToString(year)).value;
    EmployeeIdRoundTrip(year, next);
  }

  // ---------------------------------------------------------------------
  // Login security
  // ---------------------------------------------------------------------

  const MAX_FAILED_ATTEMPTS: nat := 5
  const LOCK_SECONDS: int := 1800

  datatype Security = Security(loginCount: nat, failedLoginAttempts: nat, accountLockedUntil: Option<int>)

  /** `increment_login_count`. */
  function LoggedIn(s: Security): Security
  {
    s.(loginCount := s.loginCount + 1, failedLoginAttempts := 0)
  }

  /** `increment_failed_login` at time `now`: from the fifth failure on, every failure re-arms the lock. */
  function FailedLogin(s: Security, now: int): Security
  {
    var n := s.failedLoginAttempts + 1;
    s.(failedLoginAttempts := n,
       accountLockedUntil := if n >= MAX_FAILED_ATTEMPTS then Some(now + LOCK_SECONDS) else s.accountLockedUntil)
  }

  /** `is_account_locked` at time `now`: the answer and the state it leaves (an expired lock is cleared). */
  function LockCheck(s: Security, now: int): (r: (Security, bool))
    ensures r.1 <==> s.accountLockedUntil.Some? && now < s.accountLockedUntil.value
    ensures r.1 ==> r.0 == s
    ensures !r.1 ==> r.0.accountLockedUntil.None? && r.0.loginCount == s.loginCount
    ensures !r.1 && s.accountLockedUntil.Some? ==> r.0.failedLoginAttempts == 0
    ensures s.accountLockedUntil.None? ==> r.0 == s
  {
    if s.accountLockedUntil.Some? then
      if now < s.accountLockedUntil.value then (s, true)
      else (s.(accountLockedUntil := None, failedLoginAttempts := 0), false)
    else (s, false)
  }

  /** Asking again at the same moment gives the same answer and changes nothing more. */
  lemma LockCheckIdempotent(s: Security, now: int)
    ensures LockCheck(LockCheck(s, now).0, now) == LockCheck(s, now)
  {
  }

  /** Failed logins at the given times, in order. */
  function FailedLogins(s: Security, times: seq<int>): Security
  {
    if |times| == 0 then s else FailedLogin(FailedLogins(s, times[..|times| - 1]), times[|times| - 1])
  }

  /**
   * From a clean state, k failures leave k attempts on record; the lock is set
   * exactly from the fifth failure on, and then ends 30 minutes after the last one.
   */
  lemma {:induction false} FailedLoginsSpec(s: Security, times: seq<int>)
    requires s.failedLoginAttempts == 0 && s.accountLockedUntil.None?
    ensures FailedLogins(s, times).failedLoginAttempts == |times|
    ensures FailedLogins(s, times).accountLockedUntil.Some? <==> |times| >= MAX_FAILED_ATTEMPTS
    ensures |times| >= MAX_FAILED_ATTEMPTS ==>
              FailedLogins(s, times).accountLockedUntil == Some(times[|times| - 1] + LOCK_SECONDS)
    ensures FailedLogins(s, times).loginCount == s.loginCount
  {
    if |times| > 0 {
      FailedLoginsSpec(s, times[..|times| - 1]);
    }
  }

  /** Five failures lock the account for the 30 minutes after the fifth; four do not lock it. */
  lemma FiveFailuresLock(s: Security, times: seq<int>, now: int)
    requires s.failedLoginAttempts == 0 && s.accountLockedUntil.None?
    ensures |times| == 5 ==> (LockCheck(FailedLogins(s, times), now).1 <==> now < times[4] + LOCK_SECONDS)
    ensures |times| == 4 ==> !LockCheck(FailedLogins(s, times), now).1
  {
    FailedLoginsSpec(s, times);
  }

  /** A successful login forgets earlier failures but leaves any lock in place. */
  lemma LoginResetsFailures(s: Security, t: int)
    ensures LoggedIn(s).failedLoginAttempts == 0 && LoggedIn(s).loginCount == s.loginCount + 1
    ensures LoggedIn(s).accountLockedUntil == s.accountLockedUntil
    ensures FailedLogin(LoggedIn(s), t).accountLockedUntil == s.accountLockedUntil
  {
  }

  // ---------------------------------------------------------------------
  // The mutable user
  // ---------------------------------------------------------------------

  /** Every column of a user that the model keeps. */
  datatype UserState = UserState(username: string, email: string, firstName: string, lastName: string,
                                 role: string, status: string, isSuperuser: bool, walletBalance: real,
                                 employeeId: string, dateJoinedYear: Option<nat>, security: Security,
                                 lastActivity: Option<int>)

  class User {
    var username: string
    var email: string
    var firstName: string
    var lastName: string
    var role: string
    var status: string
    var isSuperuser: bool
    var walletBalance: real
    var employeeId: string          // "" where the column is NULL or blank
    var dateJoinedYear: Option<nat>
    var loginCount: nat
    var failedLoginAttempts: nat
    var accountLockedUntil: Option<int>
    var lastActivity: Option<int>

    /** A newly created account with the column defaults. */
    constructor (username: string, email: string, role: string)
      ensures State() == UserState(username, email, "", "", role, STATUS_ACTIVE, false, 0.0, "", None,
                                   Security(0, 0, None), None)
    {
      this.username := username;
      this.email := email;
      this.role := role;
      firstName, lastName := "", "";
      status := STATUS_ACTIVE;
      isSuperuser := false;
      walletBalance := 0.0;
      employeeId := "";
      dateJoinedYear := None;
      loginCount, failedLoginAttempts, accountLockedUntil := 0, 0, None;
      lastActivity := None;
    }

    function SecurityState(): Security
      reads this
    {
      Security(loginCount, failedLoginAttempts, accountLockedUntil)
    }

    function State(): UserState
      reads this
    {
      UserState(username, email, firstName, lastName, role, status, isSuperuser, walletBalance,
                employeeId, dateJoinedYear, SecurityState(), lastActivity)
    }

    function GetFullName(): string
      reads this
    {
      FullName(firstName, lastName, username)
    }

    /** `add_to_wallet`: credits the amount and returns the new balance. */
    method AddToWallet(amount: real) returns (balance: real)
      modifies this
      ensures State() == old(State()).(walletBalance := old(walletBalance) + amount)
      ensures balance == walletBalance
    {
      walletBalance := walletBalance + amount;
      balance := walletBalance;
    }

    /** `deduct_from_wallet`. */
    method DeductFromWallet(amount: real) returns (ok: bool)
      modifies this
      ensures (walletBalance, ok) == Deducted(old(walletBalance), amount)
      ensures State() == old(State()).(walletBalance := walletBalance)
    {
      if walletBalance >= amount {
        walletBalance := walletBalance - amount;
        return true;
      }
      return false;
    }

    /**
     * `generate_employee_id`, as written: the last id of the join year is
     * taken in string order over the stored ids `existing`, and the id after
     * it is assigned and saved. `NotNumeric` is the ValueError of a tail that
     * is not a number, with nothing changed; `Taken` is the unique column
     * refusing the save of an id another user holds, after the field has
     * already been assigned in memory.
     */
    method GenerateEmployeeId(existing: seq<string>) returns (r: IdOutcome)
      modifies this
      ensures old(employeeId) != "" ==> r == Kept(old(employeeId)) && State() == old(State())
      ensures old(employeeId) == "" ==>
                var year := if dateJoinedYear.Some? then dateJoinedYear.value else DEFAULT_YEAR;
                var next := NextEmployeeNumber(LastIdAsWritten(existing, EMPLOYEE_PREFIX + NatToString(year)));
                (next.None? ==> r == NotNumeric && State() == old(State()))
                && (next.Some? ==> employeeId == EmployeeId(year, next.value)
                                   && r == (if employeeId in existing then Taken(employeeId) else Saved(employeeId)))
      ensures State() == old(State()).(employeeId := employeeId)
    {
      if employeeId != "" {
        return Kept(employeeId);
      }
      var year := if dateJoinedYear.Some? then dateJoinedYear.value else DEFAULT_YEAR;
      var next := NextEmployeeNumber(LastIdAsWritten(existing, EMPLOYEE_PREFIX + NatToString(year)));
      if next.None? {
        return NotNumeric;
      }
      var id := EmployeeId(year, next.value);
      SetEmployeeId(id);
      r := if id in existing then Taken(id) else Saved(id);
    }

    method SetEmployeeId(id: string)
      modifies this
      ensures State() == old(State()).(employeeId := id)
    {
      employeeId := id;
    }

    method IncrementLoginCount()
      modifies this
      ensures State() == old(State()).(security := LoggedIn(old(SecurityState())))
    {
      loginCount := loginCount + 1;
      failedLoginAttempts := 0;
    }

    method IncrementFailedLogin(now: int)
      modifies this
      ensures State() == old(State()).(security := FailedLogin(old(SecurityState()), now))
    {
      failedLoginAttempts := failedLoginAttempts + 1;
      if failedLoginAttempts >= MAX_FAILED_ATTEMPTS {
        accountLockedUntil := Some(now + LOCK_SECONDS);
      }
    }

    method IsAccountLocked(now: int) returns (locked: bool)
      modifies this
      ensures (SecurityState(), locked) == LockCheck(old(SecurityState()), now)
      ensures State() == old(State()).(security := SecurityState())
    {
      if accountLockedUntil.Some? {
        if now < accountLockedUntil.value {
          return true;
        }
        accountLockedUntil := None;
        failedLoginAttempts := 0;
      }
      return false;
    }

    method UpdateLastActivity(now: int)
      modifies this
      ensures State() == old(State()).(lastActivity := Some(now))
    {
      lastActivity := Some(now);
    }
  }
}

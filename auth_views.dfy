/**
 * The sign-in views: where a signed-in user is sent, the order of the checks
 * in the login form handler and the state each outcome leaves behind, the
 * validation order of the admin's create-user form, and the client address
 * taken from the request headers.
 *
 * `authenticate` is an input (the user it returns, if any), and so is the
 * ORM lookup of the account a failed attempt is charged to (every account
 * whose email or username equals the submitted name).
 */
module AuthViews {
  import opened Common
  import Accounts

  // ---------------------------------------------------------------------
  // Redirect targets
  // ---------------------------------------------------------------------

  datatype Target = SystemAdminDashboard | CanteenAdminDashboard | EmployeeDashboard | GenericDashboard
                  | NextUrl(url: string)

  /** The role redirect of `login_view`: superuser or system admin, then canteen admin, then employee. */
  function RoleRedirect(role: string, isSuperuser: bool): (t: Target)
    ensures t == SystemAdminDashboard <==> isSuperuser || role == Accounts.ROLE_SYSTEM_ADMIN
    ensures t == CanteenAdminDashboard <==> !isSuperuser && role == Accounts.ROLE_CANTEEN_ADMIN
    ensures t == EmployeeDashboard <==> !isSuperuser && role == Accounts.ROLE_EMPLOYEE
    ensures t == GenericDashboard <==>
              !isSuperuser && role !in {Accounts.ROLE_SYSTEM_ADMIN, Accounts.ROLE_CANTEEN_ADMIN, Accounts.ROLE_EMPLOYEE}
  {
    if isSuperuser || role == Accounts.ROLE_SYSTEM_ADMIN then SystemAdminDashboard
    else if role == Accounts.ROLE_CANTEEN_ADMIN then CanteenAdminDashboard
    else if role == Accounts.ROLE_EMPLOYEE then EmployeeDashboard
    else GenericDashboard
  }

  /** `DashboardRedirectView.get`: system admin, else canteen admin, else the employee dashboard. */
  function DashboardRedirect(role: string, isSuperuser: bool): (t: Target)
    ensures t == SystemAdminDashboard <==> Accounts.IsSystemAdmin(role, isSuperuser)
    ensures t == CanteenAdminDashboard <==> !Accounts.IsSystemAdmin(role, isSuperuser) && Accounts.IsCanteenAdmin(role)
    ensures t != GenericDashboard && !t.NextUrl?
  {
    if Accounts.IsSystemAdmin(role, isSuperuser) then SystemAdminDashboard
    else if Accounts.IsCanteenAdmin(role) then CanteenAdminDashboard
    else EmployeeDashboard
  }

  /**
   * The two redirects agree on every known role; an unknown role goes to the
   * generic dashboard from the login form but to the employee one from the
   * dashboard view.
   */
  lemma RedirectsAgree(role: string, isSuperuser: bool)
    ensures role in {Accounts.ROLE_SYSTEM_ADMIN, Accounts.ROLE_CANTEEN_ADMIN, Accounts.ROLE_EMPLOYEE} || isSuperuser
            ==> RoleRedirect(role, isSuperuser) == DashboardRedirect(role, isSuperuser)
    ensures !(role in {Accounts.ROLE_SYSTEM_ADMIN, Accounts.ROLE_CANTEEN_ADMIN, Accounts.ROLE_EMPLOYEE} || isSuperuser)
            ==> RoleRedirect(role, isSuperuser) == GenericDashboard
                && DashboardRedirect(role, isSuperuser) == EmployeeDashboard
  {
  }

  // ---------------------------------------------------------------------
  // Client address
  // ---------------------------------------------------------------------

  predicate TruthyString(o: Option<string>) { o.Some? && o.value != "" }

  /** `get_client_ip`: the first comma-separated field of X-Forwarded-For, untrimmed, else REMOTE_ADDR. */
  function GetClientIp(forwardedFor: Option<string>, remoteAddr: Option<string>): (ip: Option<string>)
    ensures !TruthyString(forwardedFor) ==> ip == remoteAddr
    ensures TruthyString(forwardedFor) ==>
              ip.Some? && StartsWith(forwardedFor.value, ip.value) && ',' !in ip.value
              && (|ip.value| < |forwardedFor.value| ==> forwardedFor.value[|ip.value|] == ',')
  {
    if TruthyString(forwardedFor) then Some(FirstField(forwardedFor.value, ',')) else remoteAddr
  }

  /** A header without a comma is taken whole, spaces included; a leading comma gives an empty address. */
  lemma {:induction false} ClientIpWholeHeader(h: string, remoteAddr: Option<string>)
    requires h != ""
    ensures ',' !in h ==> GetClientIp(Some(h), remoteAddr) == Some(h)
    ensures h[0] == ',' ==> GetClientIp(Some(h), remoteAddr) == Some("")
  {
    if ',' !in h {
      FirstFieldNoSeparator(h, ',');
    }
  }

  lemma {:induction false} FirstFieldNoSeparator(s: string, sep: char)
    requires sep !in s
    ensures FirstField(s, sep) == s
  {
    if |s| > 0 {
      assert sep !in s[1..];
      FirstFieldNoSeparator(s[1..], sep);
    }
  }

  // ---------------------------------------------------------------------
  // The login form
  // ---------------------------------------------------------------------

  /** One UserActivity row. */
  datatype Activity = Activity(activityType: string, description: string, ipAddress: Option<string>)

  class ActivityLog {
    var rows: seq<Activity>

    constructor ()
      ensures rows == []
    {
      rows := [];
    }
  }

  /** The decision taken for an authenticated user, on the lock state after `is_account_locked`. */
  datatype AuthenticatedStep = RejectLocked | RejectInactive | Admit

  function AuthenticatedDecision(sec: Accounts.Security, status: string, now: int): (d: AuthenticatedStep)
    ensures d == RejectLocked <==> Accounts.LockCheck(sec, now).1
    ensures d == RejectInactive <==> !Accounts.LockCheck(sec, now).1 && status != Accounts.STATUS_ACTIVE
  {
    if Accounts.LockCheck(sec, now).1 then RejectLocked
    else if status != Accounts.STATUS_ACTIVE then RejectInactive
    else Admit
  }

  /** The lock is checked first: a locked account is answered "locked" whatever its status; only an unlocked active one is admitted. */
  lemma LockBeforeStatus(sec: Accounts.Security, status: string, now: int)
    ensures sec.accountLockedUntil.Some? && now < sec.accountLockedUntil.value ==>
              AuthenticatedDecision(sec, status, now) == RejectLocked
    ensures AuthenticatedDecision(sec, status, now) == Admit <==>
              !(sec.accountLockedUntil.Some? && now < sec.accountLockedUntil.value) && status == Accounts.STATUS_ACTIVE
  {
  }

  datatype LoginReply =
    | AlreadySignedIn(to: Target)
    | LoginForm              // not a POST: the empty form
    | MissingCredentials
    | LockedOut
    | NotActive
    | SignedIn(to: Target)
    | InvalidCredentials
    | ServerError            // the account lookup for a failed attempt matched several accounts

  const LOGIN_OK: string := "User logged in successfully"
  const LOGIN_FAILED: string := "Failed login attempt"

  /**
   * `login_view` (the definition that takes effect). `current` is the role
   * and superuser flag of an already signed-in requester; `authenticated` is
   * what `authenticate` returned; `matches` the accounts the failed-attempt
   * lookup finds.
   */
  method LoginView(current: Option<(string, bool)>, isPost: bool, username: Option<string>, password: Option<string>,
                   authenticated: Accounts.User?, matches: seq<Accounts.User>, now: int, ip: Option<string>,
                   next: Option<string>, log: ActivityLog) returns (r: LoginReply)
    modifies log, authenticated, matches
    ensures current.Some? ==> r == AlreadySignedIn(RoleRedirect(current.value.0, current.value.1))
                              && log.rows == old(log.rows)
    ensures current.None? && isPost && !(TruthyString(username) && TruthyString(password)) ==>
              r == MissingCredentials && log.rows == old(log.rows)
    ensures current.None? && isPost && TruthyString(username) && TruthyString(password) && authenticated != null ==>
              var d := AuthenticatedDecision(old(authenticated.SecurityState()), authenticated.status, now);
              authenticated.status == old(authenticated.status)
              && (d == RejectLocked ==> r == LockedOut && log.rows == old(log.rows)
                                        && authenticated.SecurityState() == old(authenticated.SecurityState())
                                        && authenticated.lastActivity == old(authenticated.lastActivity))
              && (d == RejectInactive ==> r == NotActive && log.rows == old(log.rows)
                                          && authenticated.SecurityState()
                                             == Accounts.LockCheck(old(authenticated.SecurityState()), now).0
                                          && authenticated.lastActivity == old(authenticated.lastActivity))
              && (d == Admit ==>
                    authenticated.SecurityState()
                      == Accounts.LoggedIn(Accounts.LockCheck(old(authenticated.SecurityState()), now).0)
                    && authenticated.lastActivity == Some(now)
                    && log.rows == old(log.rows) + [Activity("login", LOGIN_OK, ip)]
                    && r == SignedIn(if TruthyString(next) then NextUrl(next.value)
                                     else RoleRedirect(authenticated.role, authenticated.isSuperuser)))
    ensures current.None? && isPost && TruthyString(username) && TruthyString(password) && authenticated == null ==>
              (|matches| == 0 ==> r == InvalidCredentials && log.rows == old(log.rows))
              && (|matches| == 1 ==>
                    r == InvalidCredentials
                    && matches[0].SecurityState() == Accounts.FailedLogin(old(matches[0].SecurityState()), now)
                    && log.rows == old(log.rows) + [Activity("login", LOGIN_FAILED, ip)])
              && (|matches| > 1 ==> r == ServerError && log.rows == old(log.rows))
              && (|matches| != 1 ==> forall u :: u in matches ==> u.SecurityState() == old(u.SecurityState()))
    ensures current.None? && !isPost ==> r == LoginForm && log.rows == old(log.rows)
    ensures authenticated != null ==>
              authenticated.State()
              == old(authenticated.State()).(security := authenticated.SecurityState(),
                                             lastActivity := authenticated.lastActivity)
    ensures authenticated == null ==>
              forall u :: u in matches ==> u.State() == old(u.State()).(security := u.SecurityState())
    ensures current.Some? || !isPost || !(TruthyString(username) && TruthyString(password)) ==>
              (authenticated != null ==> authenticated.State() == old(authenticated.State()))
              && forall u :: u in matches ==> u.State() == old(u.State())
    ensures authenticated != null ==> forall u :: u in matches && u != authenticated ==> u.State() == old(u.State())
    ensures authenticated == null && |matches| != 1 ==> forall u :: u in matches ==> u.State() == old(u.State())
  {
    if current.Some? {
      return AlreadySignedIn(RoleRedirect(current.value.0, current.value.1));
    }
    if !isPost {
      return LoginForm;
    }
    if !(TruthyString(username) && TruthyString(password)) {
      return MissingCredentials;
    }
    if authenticated != null {
      var locked := authenticated.IsAccountLocked(now);
      if locked {
        return LockedOut;
      }
      if authenticated.status != Accounts.STATUS_ACTIVE {
        return NotActive;
      }
      authenticated.IncrementLoginCount();
      authenticated.UpdateLastActivity(now);
      log.rows := log.rows + [Activity("login", LOGIN_OK, ip)];
      if TruthyString(next) {
        return SignedIn(NextUrl(next.value));
      }
      return SignedIn(RoleRedirect(authenticated.role, authenticated.isSuperuser));
    }
    if |matches| == 0 {
      return InvalidCredentials;
    }
    if |matches| > 1 {
      // `User.objects.get` raises MultipleObjectsReturned, which nothing catches.
      return ServerError;
    }
    matches[0].IncrementFailedLogin(now);
    log.rows := log.rows + [Activity("login", LOGIN_FAILED, ip)];
    r := InvalidCredentials;
  }

  // ---------------------------------------------------------------------
  // Creating a user
  // ---------------------------------------------------------------------

  datatype CreateOutcome = MissingFields | PasswordMismatch | DuplicateEmail | DuplicateUsername | Created

  /** The posted fields of the create-user form; None is an absent field. */
  datatype NewUserForm = NewUserForm(firstName: Option<string>, lastName: Option<string>, username: Option<string>,
                                     email: Option<string>, role: Option<string>, password: Option<string>,
                                     confirmPassword: Option<string>)

  predicate RequiredPresent(f: NewUserForm)
  {
    TruthyString(f.firstName) && TruthyString(f.lastName) && TruthyString(f.username) && TruthyString(f.email)
    && TruthyString(f.role) && TruthyString(f.password)
  }

  /** `create_user_view`'s checks, in their order; `emailTaken`/`usernameTaken` are the two existence queries. */
  function CreateUserDecision(f: NewUserForm, emailTaken: bool, usernameTaken: bool): (o: CreateOutcome)
    ensures o == Created <==>
              RequiredPresent(f) && f.password == f.confirmPassword && !emailTaken && !usernameTaken
  {
    if !RequiredPresent(f) then MissingFields
    else if f.password != f.confirmPassword then PasswordMismatch
    else if emailTaken then DuplicateEmail
    else if usernameTaken then DuplicateUsername
    else Created
  }

  /** Each rejection is reported only once every earlier check has passed. */
  lemma CreateUserCheckOrder(f: NewUserForm, emailTaken: bool, usernameTaken: bool)
    ensures CreateUserDecision(f, emailTaken, usernameTaken) == MissingFields <==> !RequiredPresent(f)
    ensures CreateUserDecision(f, emailTaken, usernameTaken) == PasswordMismatch <==>
              RequiredPresent(f) && f.password != f.confirmPassword
    ensures CreateUserDecision(f, emailTaken, usernameTaken) == DuplicateEmail <==>
              RequiredPresent(f) && f.password == f.confirmPassword && emailTaken
    ensures CreateUserDecision(f, emailTaken, usernameTaken) == DuplicateUsername <==>
              RequiredPresent(f) && f.password == f.confirmPassword && !emailTaken && usernameTaken
  {
  }

  /** The confirmation is not a required field, but a missing one never matches a given password. */
  lemma MissingConfirmationRejected(f: NewUserForm, emailTaken: bool, usernameTaken: bool)
    requires RequiredPresent(f) && f.confirmPassword.None?
    ensures CreateUserDecision(f, emailTaken, usernameTaken) == PasswordMismatch
  {
  }
}

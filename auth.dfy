/**
 * The authentication stub: a session record kept in sessionStorage under
 * "auth_session", expired lazily when it is read, and a login that compares
 * against one credential pair per role. Storage errors are swallowed.
 */
module Auth {
  import opened Wrappers
  import opened Storage

  datatype UserType = Employee | Retail

  datatype AuthSession = AuthSession(email: string, userType: UserType, sessionId: string, timestamp: int)

  type SessionStore = KeyValueStore<AuthSession>

  const SESSION_STORAGE_KEY: string := "auth_session"

  /** 24 hours, in milliseconds. */
  const SESSION_LIFETIME_MS: int := 24 * 60 * 60 * 1000

  /** A session is expired when it is strictly more than 24 hours old at `now`. */
  function IsExpired(session: AuthSession, now: int): (expired: bool)
    ensures expired <==> session.timestamp < now - SESSION_LIFETIME_MS
    ensures expired ==> session.timestamp < now
  {
    now - session.timestamp > SESSION_LIFETIME_MS
  }

  /** The slot holds a parsed session that has expired at `now`. */
  predicate HoldsExpiredSession(slot: Option<Stored<AuthSession>>, now: int)
  {
    slot.Some? && slot.value.Parsed? && IsExpired(slot.value.value, now)
  }

  /**
   * What `getSession` returns for a slot at `now`: the stored session when
   * it parses and has not expired; null when nothing (or the empty string)
   * is stored, when the text does not parse, or when the session expired.
   */
  function LiveSession(slot: Option<Stored<AuthSession>>, now: int): (r: Option<AuthSession>)
    ensures r.Some? <==> slot.Some? && slot.value.Parsed? && !IsExpired(slot.value.value, now)
    ensures r.Some? ==> slot == Some(Parsed(r.value))
  {
    match slot
    case Some(Parsed(session)) => if IsExpired(session, now) then None else Some(session)
    case _ => None
  }

  /** `saveSession`: writes the session under "auth_session"; a failing write is swallowed. */
  method SaveSession(store: SessionStore, session: AuthSession, fault: bool)
    modifies store
    ensures store.items == if fault then old(store.items)
                           else old(store.items)[SESSION_STORAGE_KEY := Parsed(session)]
  {
    var _ := store.SetItem(SESSION_STORAGE_KEY, session, fault);
  }

  /** `clearSession`: removes "auth_session"; a failing removal is swallowed. */
  method ClearSession(store: SessionStore, fault: bool)
    modifies store
    ensures store.items == if fault then old(store.items) else old(store.items) - {SESSION_STORAGE_KEY}
  {
    var _ := store.RemoveItem(SESSION_STORAGE_KEY, fault);
  }

  /**
   * `getSession`: returns the live session, if any. Reading an expired
   * session removes the key (unless the removal fails); nothing else,
   * unparseable text included, changes the storage.
   */
  method GetSession(store: SessionStore, now: int, removeFault: bool) returns (r: Option<AuthSession>)
    modifies store
    ensures r == LiveSession(old(store.GetItem(SESSION_STORAGE_KEY)), now)
    ensures store.items ==
      if HoldsExpiredSession(old(store.GetItem(SESSION_STORAGE_KEY)), now) && !removeFault
      then old(store.items) - {SESSION_STORAGE_KEY}
      else old(store.items)
  {
    var slot := store.GetItem(SESSION_STORAGE_KEY);
    match slot {
      case Some(Parsed(session)) =>
        if IsExpired(session, now) {
          ClearSession(store, removeFault);
          r := None;
        } else {
          r := Some(session);
        }
      case _ =>
        r := None;
    }
  }

  /** A saved session reads back unchanged until it is more than 24 hours old. */
  lemma SavedSessionReadsBack(items: map<string, Stored<AuthSession>>, session: AuthSession, now: int)
    requires now - session.timestamp <= SESSION_LIFETIME_MS
    ensures var saved := items[SESSION_STORAGE_KEY := Parsed(session)];
      LiveSession(Some(saved[SESSION_STORAGE_KEY]), now) == Some(session)
  {
  }

  /** Once expired, a session stays expired at every later time. */
  lemma ExpiryIsPermanent(session: AuthSession, now: int, later: int)
    requires IsExpired(session, now) && now <= later
    ensures IsExpired(session, later)
  {
  }

  /** The boundary is strict: exactly 24 hours old is live, one millisecond more is not. */
  lemma ExpiryBoundary(session: AuthSession)
    ensures LiveSession(Some(Parsed(session)), session.timestamp + SESSION_LIFETIME_MS) == Some(session)
    ensures LiveSession(Some(Parsed(session)), session.timestamp + SESSION_LIFETIME_MS + 1) == None
  {
  }

  // ---------------------------------------------------------------------
  // Login, logout, validation
  // ---------------------------------------------------------------------

  datatype Credential = Credential(email: string, password: string)

  datatype CredentialTable = CredentialTable(employee: Credential, retail: Credential)

  /** The four environment variables that may override the built-in pairs. */
  datatype AuthEnv = AuthEnv(
    employeeEmail: Option<string>,
    employeePassword: Option<string>,
    retailEmail: Option<string>,
    retailPassword: Option<string>)

  const DEFAULT_EMPLOYEE_EMAIL: string := "employee@cushon.com"
  const DEFAULT_EMPLOYEE_PASSWORD: string := "StrongPassword123"
  const DEFAULT_RETAIL_EMAIL: string := "customer@retail.com"
  const DEFAULT_RETAIL_PASSWORD: string := "StrongPassword123"

  /** `env.X || fallback`: an unset or empty variable gives the fallback. */
  function EnvOr(variable: Option<string>, fallback: string): (value: string)
    ensures variable.Some? && variable.value != "" ==> value == variable.value
    ensures variable.None? || variable.value == "" ==> value == fallback
  {
    if variable.Some? && variable.value != "" then variable.value else fallback
  }

  /** The pair login accepts for each role. */
  function ValidCredentials(env: AuthEnv): (table: CredentialTable)
    ensures table.employee.email != "" && table.employee.password != ""
    ensures table.retail.email != "" && table.retail.password != ""
    ensures env.employeeEmail.Some? && env.employeeEmail.value != "" ==>
      table.employee.email == env.employeeEmail.value
    ensures env.employeePassword.Some? && env.employeePassword.value != "" ==>
      table.employee.password == env.employeePassword.value
    ensures env.retailEmail.Some? && env.retailEmail.value != "" ==>
      table.retail.email == env.retailEmail.value
    ensures env.retailPassword.Some? && env.retailPassword.value != "" ==>
      table.retail.password == env.retailPassword.value
    ensures (env.employeeEmail.None? || env.employeeEmail.value == "") ==> table.employee.email == DEFAULT_EMPLOYEE_EMAIL
    ensures (env.employeePassword.None? || env.employeePassword.value == "") ==>
      table.employee.password == DEFAULT_EMPLOYEE_PASSWORD
    ensures (env.retailEmail.None? || env.retailEmail.value == "") ==> table.retail.email == DEFAULT_RETAIL_EMAIL
    ensures (env.retailPassword.None? || env.retailPassword.value == "") ==>
      table.retail.password == DEFAULT_RETAIL_PASSWORD
    ensures env == AuthEnv(None, None, None, None) ==>
      && table.employee == Credential(DEFAULT_EMPLOYEE_EMAIL, DEFAULT_EMPLOYEE_PASSWORD)
      && table.retail == Credential(DEFAULT_RETAIL_EMAIL, DEFAULT_RETAIL_PASSWORD)
  {
    CredentialTable(
      Credential(EnvOr(env.employeeEmail, DEFAULT_EMPLOYEE_EMAIL), EnvOr(env.employeePassword, DEFAULT_EMPLOYEE_PASSWORD)),
      Credential(EnvOr(env.retailEmail, DEFAULT_RETAIL_EMAIL), EnvOr(env.retailPassword, DEFAULT_RETAIL_PASSWORD)))
  }

  function CredentialFor(table: CredentialTable, userType: UserType): Credential
  {
    match userType
    case Employee => table.employee
    case Retail => table.retail
  }

  /** Both the email and the password equal the pair of the requested role. */
  function CredentialsMatch(table: CredentialTable, email: string, password: string, userType: UserType)
    : (matched: bool)
    ensures matched <==> Credential(email, password) == CredentialFor(table, userType)
  {
    email == CredentialFor(table, userType).email && password == CredentialFor(table, userType).password
  }

  datatype LoginUser = LoginUser(email: string, userType: UserType, sessionId: string)

  datatype LoginResponse = LoginResponse(success: bool, user: LoginUser)

  datatype LoginError = LoginError(status: int, success: bool, message: string)

  const INVALID_CREDENTIALS: LoginError :=
    LoginError(401, false, "Invalid email or password. Please try again.")

  /**
   * `login`: succeeds exactly when the email and password are the role's
   * pair. On success the session `{email, userType, sessionId, now}` is saved
   * (a failing save is swallowed) and the response carries the same email,
   * role and session id; on failure it is the 401 error and nothing is saved.
   * `now` and the fresh session id stand for the clock and the random suffix.
   */
  method Login(store: SessionStore, env: AuthEnv, email: string, password: string, userType: UserType,
               now: int, freshSessionId: string, saveFault: bool)
    returns (r: Result<LoginResponse, LoginError>)
    modifies store
    ensures r.Success? <==> CredentialsMatch(ValidCredentials(env), email, password, userType)
    ensures r.Failure? ==> r.error == INVALID_CREDENTIALS && store.items == old(store.items)
    ensures r.Success? ==>
      && r.value == LoginResponse(true, LoginUser(email, userType, freshSessionId))
      && store.items == if saveFault then old(store.items)
                        else old(store.items)[SESSION_STORAGE_KEY := Parsed(AuthSession(email, userType, freshSessionId, now))]
  {
    var valid := CredentialFor(ValidCredentials(env), userType);
    if email != valid.email || password != valid.password {
      r := Failure(INVALID_CREDENTIALS);
      return;
    }
    var session := AuthSession(email, userType, freshSessionId, now);
    SaveSession(store, session, saveFault);
    r := Success(LoginResponse(true, LoginUser(email, userType, freshSessionId)));
  }

  /** `logout`: removes the session and always reports success, even when the removal fails. */
  method Logout(store: SessionStore, removeFault: bool) returns (success: bool)
    modifies store
    ensures success
    ensures store.items == if removeFault then old(store.items) else old(store.items) - {SESSION_STORAGE_KEY}
  {
    ClearSession(store, removeFault);
    success := true;
  }

  /** `validateSession`: the result of `getSession`, null when there is no live session. */
  method ValidateSession(store: SessionStore, now: int, removeFault: bool) returns (r: Option<AuthSession>)
    modifies store
    ensures r == LiveSession(old(store.GetItem(SESSION_STORAGE_KEY)), now)
    ensures store.items ==
      if HoldsExpiredSession(old(store.GetItem(SESSION_STORAGE_KEY)), now) && !removeFault
      then old(store.items) - {SESSION_STORAGE_KEY}
      else old(store.items)
  {
    var session := GetSession(store, now, removeFault);
    if session.None? {
      return None;
    }
    r := session;
  }
}

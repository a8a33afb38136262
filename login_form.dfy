/**
 * The login form hook's decisions: the email and password checks, the demo
 * credentials it offers, the error message it shows and where it navigates
 * after a successful login.
 */
module LoginForm {
  import opened Wrappers
  import opened Auth
  import Routes

  datatype FieldCheck = FieldValid | FieldInvalid(message: string)

  const EMAIL_REQUIRED: string := "Email is required"
  const EMAIL_INVALID: string := "Please enter a valid email address"
  const PASSWORD_REQUIRED: string := "Password is required"
  const PASSWORD_TOO_SHORT: string := "Password must be at least 6 characters"
  const MIN_PASSWORD_LENGTH: nat := 6

  // ---------------------------------------------------------------------
  // The email pattern /^[^\s@]+@[^\s@]+\.[^\s@]+$/
  // ---------------------------------------------------------------------

  /** A character of the regular-expression class `\s` (ECMAScript white space and line terminators). */
  predicate IsRegexSpace(c: char)
  {
    var n := c as int;
    || (9 <= n <= 13) || n == 32 || n == 0xA0 || n == 0x1680
    || (0x2000 <= n <= 0x200A) || n == 0x2028 || n == 0x2029
    || n == 0x202F || n == 0x205F || n == 0x3000 || n == 0xFEFF
  }

  /** Every character belongs to `[^\s@]`. */
  predicate NoSpaceOrAt(s: string)
  {
    forall k :: 0 <= k < |s| ==> !IsRegexSpace(s[k]) && s[k] != '@'
  }

  /**
   * The pattern's meaning: the text splits as L '@' D '.' T with L, D and T
   * non-empty runs of `[^\s@]`.
   */
  ghost predicate MatchesEmailPattern(s: string)
  {
    exists i, j :: && 0 < i && i + 1 < j && j + 1 < |s|
                   && s[i] == '@' && s[j] == '.'
                   && NoSpaceOrAt(s[..i]) && NoSpaceOrAt(s[i + 1..j]) && NoSpaceOrAt(s[j + 1..])
  }

  /** The first index of `c` in `s`, or -1. */
  function IndexOf(s: string, c: char): (i: int)
    ensures -1 <= i < |s|
    ensures 0 <= i ==> s[i] == c
    ensures forall k :: 0 <= k < |s| && (i < 0 || k < i) ==> s[k] != c
  {
    if s == [] then -1
    else if s[0] == c then 0
    else
      var j := IndexOf(s[1..], c);
      if j < 0 then -1 else j + 1
  }

  /** A '.' that is neither the first nor the last character. */
  predicate HasInnerDot(domain: string)
  {
    exists p :: 1 <= p < |domain| - 1 && domain[p] == '.'
  }

  /**
   * The check as a decision: a non-empty part before the first '@' with no
   * white space, and after it a domain with no white space and no further
   * '@' that holds an inner '.'.
   */
  predicate IsEmailAddress(s: string)
  {
    var at := IndexOf(s, '@');
    && 0 < at
    && NoSpaceOrAt(s[..at])
    && NoSpaceOrAt(s[at + 1..])
    && HasInnerDot(s[at + 1..])
  }

  /** Every slice of a run of `[^\s@]` is one too. */
  lemma NoSpaceOrAtSlice(s: string, lo: nat, hi: nat)
    requires NoSpaceOrAt(s) && lo <= hi <= |s|
    ensures NoSpaceOrAt(s[lo..hi])
  {
    assert forall k :: 0 <= k < hi - lo ==> s[lo..hi][k] == s[lo + k];
  }

  lemma EmailAddressMatchesPattern(s: string)
    requires IsEmailAddress(s)
    ensures MatchesEmailPattern(s)
  {
    var at := IndexOf(s, '@');
    var domain := s[at + 1..];
    var p :| 1 <= p < |domain| - 1 && domain[p] == '.';
    var j := at + 1 + p;
    NoSpaceOrAtSlice(domain, 0, p);
    NoSpaceOrAtSlice(domain, p + 1, |domain|);
    assert s[at + 1..j] == domain[..p];
    assert s[j + 1..] == domain[p + 1..];
    assert s[at] == '@' && s[j] == '.';
  }

  /** An '@' preceded only by `[^\s@]` characters is the first '@'. */
  lemma FirstAt(s: string, i: nat)
    requires i < |s| && s[i] == '@' && NoSpaceOrAt(s[..i])
    ensures IndexOf(s, '@') == i
  {
    assert forall k :: 0 <= k < i ==> s[k] == s[..i][k];
  }

  /** Two runs of `[^\s@]` joined by a '.' form one run. */
  lemma NoSpaceOrAtJoin(a: string, b: string)
    requires NoSpaceOrAt(a) && NoSpaceOrAt(b)
    ensures NoSpaceOrAt(a + ['.'] + b)
  {
    var joined := a + ['.'] + b;
    forall k | 0 <= k < |joined| ensures !IsRegexSpace(joined[k]) && joined[k] != '@' {
      if k < |a| {
        assert joined[k] == a[k];
      } else if k > |a| {
        assert joined[k] == b[k - |a| - 1];
      } else {
        assert joined[k] == '.';
      }
    }
  }

  /** A split L '@' D '.' T of the pattern's shape passes the decision. */
  lemma SplitIsEmailAddress(s: string, i: nat, j: nat)
    requires 0 < i && i + 1 < j && j + 1 < |s| && s[i] == '@' && s[j] == '.'
    requires NoSpaceOrAt(s[..i]) && NoSpaceOrAt(s[i + 1..j]) && NoSpaceOrAt(s[j + 1..])
    ensures IsEmailAddress(s)
  {
    FirstAt(s, i);
    var domain, name, tld := s[i + 1..], s[i + 1..j], s[j + 1..];
    assert domain == name + ['.'] + tld;
    NoSpaceOrAtJoin(name, tld);
    assert HasInnerDot(domain) by {
      assert domain[|name|] == '.';
    }
  }

  lemma PatternMatchIsEmailAddress(s: string)
    requires MatchesEmailPattern(s)
    ensures IsEmailAddress(s)
  {
    var i, j :| && 0 < i && i + 1 < j && j + 1 < |s|
                && s[i] == '@' && s[j] == '.'
                && NoSpaceOrAt(s[..i]) && NoSpaceOrAt(s[i + 1..j]) && NoSpaceOrAt(s[j + 1..]);
    SplitIsEmailAddress(s, i, j);
  }

  /** The decision accepts exactly the texts the pattern matches. */
  lemma IsEmailAddressMatchesPattern(s: string)
    ensures IsEmailAddress(s) <==> MatchesEmailPattern(s)
  {
    if IsEmailAddress(s) {
      EmailAddressMatchesPattern(s);
    }
    if MatchesEmailPattern(s) {
      PatternMatchIsEmailAddress(s);
    }
  }

  /**
   * `validateEmail`: the empty text is "required"; otherwise the text is
   * accepted exactly when the email pattern matches it.
   */
  function ValidateEmail(value: string): (r: FieldCheck)
    ensures r == FieldInvalid(EMAIL_REQUIRED) <==> value == ""
    ensures r == FieldValid <==> MatchesEmailPattern(value)
    ensures r.FieldInvalid? && value != "" ==> r.message == EMAIL_INVALID
  {
    IsEmailAddressMatchesPattern(value);
    assert EMAIL_REQUIRED[0] != EMAIL_INVALID[0];
    if value == "" then FieldInvalid(EMAIL_REQUIRED)
    else if !IsEmailAddress(value) then FieldInvalid(EMAIL_INVALID)
    else FieldValid
  }

  /**
   * `validatePassword`: the empty text is "required", one shorter than 6
   * is "too short", and any text of length 6 or more is accepted.
   */
  function ValidatePassword(value: string): (r: FieldCheck)
    ensures r == FieldValid <==> |value| >= MIN_PASSWORD_LENGTH
    ensures value == "" ==> r == FieldInvalid(PASSWORD_REQUIRED)
    ensures 0 < |value| < MIN_PASSWORD_LENGTH ==> r == FieldInvalid(PASSWORD_TOO_SHORT)
  {
    if value == "" then FieldInvalid(PASSWORD_REQUIRED)
    else if |value| < MIN_PASSWORD_LENGTH then FieldInvalid(PASSWORD_TOO_SHORT)
    else FieldValid
  }

  // ---------------------------------------------------------------------
  // Demo credentials, error message, navigation
  // ---------------------------------------------------------------------

  datatype DemoCredentials = DemoCredentials(email: string, password: string, userTypeLabel: string)

  /** `getDemoCredentials`: the pair the form displays for its role. */
  function GetDemoCredentials(env: AuthEnv, userType: UserType): (demo: DemoCredentials)
    ensures Credential(demo.email, demo.password) == CredentialFor(ValidCredentials(env), userType)
    ensures demo.userTypeLabel == if userType == Employee then "Employee" else "Retail Customer"
  {
    DemoCredentials(
      if userType == Employee then EnvOr(env.employeeEmail, "employee@cushon.com")
      else EnvOr(env.retailEmail, "customer@retail.com"),
      if userType == Employee then EnvOr(env.employeePassword, "StrongPassword123")
      else EnvOr(env.retailPassword, "StrongPassword123"),
      if userType == Employee then "Employee" else "Retail Customer")
  }

  /** The displayed demo pair is the pair login accepts for that role, in every environment. */
  lemma DemoCredentialsLogIn(env: AuthEnv, userType: UserType)
    ensures var demo := GetDemoCredentials(env, userType);
      CredentialsMatch(ValidCredentials(env), demo.email, demo.password, userType)
  {
  }

  /** The login mutation's error: one carrying `data` (with or without a message), or another kind. */
  datatype LoginFailure = DataError(message: Option<string>) | OtherError

  const GENERIC_LOGIN_ERROR: string := "An error occurred during login. Please try again."

  /**
   * `getLoginErrorMessage`: null without an error; the error's own message
   * when it carries a non-empty one; the generic text otherwise.
   */
  function GetLoginErrorMessage(error: Option<LoginFailure>): (r: Option<string>)
    ensures r.None? <==> error.None?
    ensures error.Some? && error.value.DataError? && error.value.message.Some? && error.value.message.value != "" ==>
      r == error.value.message
    ensures error.Some? && !(error.value.DataError? && error.value.message.Some? && error.value.message.value != "") ==>
      r == Some(GENERIC_LOGIN_ERROR)
    ensures r.Some? ==> r.value != ""
  {
    match error
    case None => None
    case Some(DataError(Some(message))) => if message != "" then Some(message) else Some(GENERIC_LOGIN_ERROR)
    case Some(_) => Some(GENERIC_LOGIN_ERROR)
  }

  /** A rejected login shows the API's own 401 message. */
  lemma RejectedLoginMessage()
    ensures GetLoginErrorMessage(Some(DataError(Some(INVALID_CREDENTIALS.message))))
         == Some("Invalid email or password. Please try again.")
  {
  }

  /**
   * Where `onSubmit` navigates after the login call: the form's role's
   * dashboard when the response reports success, nowhere otherwise.
   */
  function NavigationAfterLogin(response: LoginResponse, userType: UserType): (path: Option<string>)
    ensures path.Some? <==> response.success
    ensures path.Some? && userType == Employee ==> path.value == Routes.EMPLOYEE
    ensures path.Some? && userType == Retail ==> path.value == Routes.RETAIL
  {
    if response.success then Some(Routes.DashboardFor(userType)) else None
  }
}

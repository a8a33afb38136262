# cushon-app investment and login core in Dafny

This project models the decision logic of the cushon-app demo, a React and
Redux front end with two roles: employees and retail customers. A retail
customer keeps an investment ledger in browser storage and adds
contributions to funds, up to a regional cap.

The model covers:

- **The ledger** (`Ledger`). This is the retail API stub. It keeps the
  record `{totalInvestment, fundsList}` under the localStorage key
  `"userInvestment"`. It reads the record afresh, merges a contribution into
  it (the first entry with the fund id gains the amount, or a new entry is
  appended), writes it back, and clears it.
- **The contribution validator** (`InvestmentForm`). This is the amount and
  fund checks of the add-investment form, together with the region defaults
  it applies (`Region`).
- **The session store and login** (`Auth`). A session lives in
  sessionStorage under `"auth_session"`. It expires after 24 hours and is
  removed when it is read after that. Login compares against one credential
  pair per role, which environment variables may override. Logout and
  session validation are modelled too.
- **The user slice** (`UserSlice.UserState`). This is a class whose three
  reducers update its five fields in place. Its initial state is read from
  the session.
- **The login form** (`LoginForm`). This covers the email pattern check,
  the password check, the demo credentials, the error message and where the
  form navigates after login.
- **The route guards** (`RouteGuards`, `Routes`). `ProtectedRoute` sits in
  front of each dashboard. `AuthRedirect` sits in front of the login page.
- **The error fallback** (`ErrorFallback`). This is the ordered
  classification of a failed query into title, description, severity and
  retry button.
- **The investment card** (`InvestmentCard`). This covers its defaults,
  whether more can be added, and its footer.

Browser storage is the generic class `Storage.KeyValueStore`. It is a map
from keys to a stored value, which is one of three things:

- a parsed value;
- the empty string, which JavaScript treats as falsy;
- text that does not parse.

A failing `setItem` or `removeItem` is a `fault` parameter. The clock
(`Date.now()`), the random session id and the build environment are
parameters too. Amounts are `real`.

Three details of the code and how the model treats them:

- The region service and the form write the pound sign as the mis-encoded
  `"Â£"`. The model writes `"£"`: the symbol is only displayed.
- The form's fallback symbol is `"£"` but the card's is `"$"`, as in the
  code.
- The 401 login error body has `success: false`, and it is its `message`
  that the form shows.

## Model

| member | source | states |
|---|---|---|
| Region.MaxInvestment | src/components/AddInvestmentForm.tsx:62 | The cap is the configured amount unless the configuration is missing or the amount is 0, in which case it is 20000. It is never 0. |
| Region.CurrencySymbol | src/components/AddInvestmentForm.tsx:63 | The configured symbol, unless the configuration is missing or the symbol is empty; then the component's fallback. It is non-empty whenever the fallback is. |
| Ledger.ReadUserInvestment | src/store/api/retailApi.ts:33-48 | An absent, empty or unparseable slot reads as the empty record `{0, []}`. Anything that parses is returned as it parsed. |
| Ledger.SaveUserInvestment | src/store/api/retailApi.ts:22-30 | Writes only the "userInvestment" key. A failing write leaves storage unchanged. A successful write reads back as the same record. |
| Ledger.MergeContribution | src/store/api/retailApi.ts:89-108 | The merged list keeps every old entry's id and name in place. It grows by at most one entry, and afterwards it holds the contributed fund id. |
| Ledger.ApplyContribution | src/store/api/retailApi.ts:84-114 | The new total is the old total plus the amount. The new fund list holds the fund id and has at most one more entry. |
| Ledger.FindFundIndex | src/store/api/retailApi.ts:90-92 | Returns the first index whose entry has the fund id: no earlier entry has it. Returns -1 exactly when no entry has it. |
| Ledger.ContributionToExistingFund | src/store/api/retailApi.ts:95-101 | Only the first entry with the id gains the amount, and it keeps its name. The length, the order and all other entries are unchanged. |
| Ledger.ContributionToNewFund | src/store/api/retailApi.ts:102-108 | A new id appends exactly one entry `{fundId, fundName, amount}` after the unchanged old list. |
| Ledger.ContributionKeepsTotalReconciled | src/store/api/retailApi.ts:84-114 | The new total is the old total plus the amount. The fund amounts also sum to exactly that much more. So a record whose total equals its funds' sum keeps that property. |
| Ledger.ContributionKeepsFundIdsUnique | src/store/api/retailApi.ts:89-108 | A fund list without repeated ids has none after a contribution. |
| Ledger.GetRetailCustomerData | src/store/api/retailApi.ts:57-70 | The stub customer John Doe, member since 2023, around whatever the ledger reads. |
| Ledger.UpdateInvestment | src/store/api/retailApi.ts:78-135 | The contribution is merged into the freshly read record and returned. The result is written back unless the write fails; the failure is swallowed and the record is still returned. A stored value with no fund list gives 500 "Failed to update investment" and writes nothing. |
| Ledger.ClearInvestment | src/store/api/retailApi.ts:139-173 | Writes the empty record, whatever was stored, unless the write fails; the failure is swallowed and the empty record is still returned. It never reports an error. |
| InvestmentForm.CoerceAmountInput | src/components/AddInvestmentForm.tsx:141-143 | `parseFloat(text) \|\| 0` always yields a number. Text that is not a number becomes 0; any number is kept. |
| InvestmentForm.RemainingAmount | src/components/AddInvestmentForm.tsx:67 | Adding the remaining amount to the total reaches the cap exactly. It is positive exactly when the total is under the cap. |
| InvestmentForm.NewTotalInvestment | src/components/AddInvestmentForm.tsx:65-66 | The total plus the watched amount, where a watched 0 or NaN counts as 0. |
| InvestmentForm.ValidateAmount | src/components/AddInvestmentForm.tsx:65-77 | The checks apply in order. First, refused as required exactly when the amount is not positive. Then, refused with the remaining capacity exactly when it exceeds max minus total. Then, refused with the cap exactly when the watched new total exceeds the cap. Accepted exactly when none of these applies. |
| InvestmentForm.ValidateFund | src/components/AddInvestmentForm.tsx:79-82 | Refused exactly when the fund id is empty. |
| InvestmentForm.AcceptedIffWithinRemaining | src/components/AddInvestmentForm.tsx:65-76 | When the watched amount is the value checked: accepted if and only if 0 < amount <= max - total. The total check then never fires. |
| InvestmentForm.StaleWatchedAmountTripsTotalCheck | src/components/AddInvestmentForm.tsx:65-75 | A watched amount that differs from the value can make the third check fire. |
| InvestmentForm.CapBoundaryExample | src/components/AddInvestmentForm.tsx:69-76 | With cap 20000 and total 18000: 2000 is accepted. 2001 is refused with remaining 2000. 0 and -5 are refused as required. |
| InvestmentForm.NonNumericInputRefused | src/components/AddInvestmentForm.tsx:141-143 | Text that is not a number becomes 0 and is refused by the first check. |
| InvestmentForm.AcceptedContributionRespectsCap | src/components/AddInvestmentForm.tsx:62-76 | The ledger applies an amount the form accepted, whatever the watched amount was. Its total then strictly grows and stays at or under the region cap, and a reconciled record stays reconciled. |
| InvestmentForm.CatalogFundsAccepted | src/store/api/fundsApi.ts:20-25 | Every fund the catalogue offers passes the fund check. |
| Region.UkRegionPolicy | src/store/api/regionApi.ts:22-29 | Under the region service's configuration the cap is 20000 and the symbol is the pound sign. |
| InvestmentCard.TotalShown | src/components/InvestmentCard.tsx:37 | A missing record or total shows 0; otherwise the total itself. |
| InvestmentCard.FundsShown | src/components/InvestmentCard.tsx:38 | A missing record or list shows no funds; otherwise the list itself. |
| InvestmentCard.CardSymbol | src/components/InvestmentCard.tsx:42 | The configured symbol, or "$" when the configuration is missing or its symbol is empty. It is never empty. |
| InvestmentCard.CanAddMore | src/components/InvestmentCard.tsx:44 | More can be added exactly when the form's remaining capacity is positive. |
| InvestmentCard.CardFooter | src/components/InvestmentCard.tsx:132-152 | The limit message shows exactly when no more can be added. The add button shows exactly when more can be added and a handler exists. Never both. |
| InvestmentCard.CanAddMoreIffSomeAmountAccepted | src/components/InvestmentCard.tsx:41-44 | The card offers more (total < cap) exactly when the form would accept some amount against the same cap. |
| Auth.IsExpired | src/store/api/authApi.ts:46 | Expired exactly when the timestamp is more than 24 hours before now; an expired session was created in the past. |
| Auth.ExpiryIsPermanent | src/store/api/authApi.ts:46 | A session expired at some time stays expired at every later time. |
| Auth.LiveSession | src/store/api/authApi.ts:38-57 | A session is returned exactly when the slot holds a parsed session that is at most 24 hours old, and it is the stored one. Nothing, the empty string, unparseable text or an expired session give null. |
| Auth.SaveSession | src/store/api/authApi.ts:30-36 | Writes only "auth_session". A failing write is swallowed. |
| Auth.ClearSession | src/store/api/authApi.ts:59-65 | Removes only "auth_session". A failing removal is swallowed. |
| Auth.GetSession | src/store/api/authApi.ts:38-57 | Returns the live session. The key is removed exactly when it holds an expired session and the removal succeeds. Nothing else changes. |
| Auth.SavedSessionReadsBack | src/store/api/authApi.ts:30-52 | A saved session reads back unchanged while it is at most 24 hours old. |
| Auth.ExpiryBoundary | src/store/api/authApi.ts:46 | Expiry is strict: exactly 24 hours old is live, one millisecond more is not. |
| Auth.EnvOr | src/store/api/authApi.ts:83-90 | An unset or empty variable gives the built-in default; otherwise its value is used. |
| Auth.ValidCredentials | src/store/api/authApi.ts:81-92 | Each field is its environment variable when that is set and non-empty, and the built-in default otherwise. So every email and password in the table is non-empty. |
| Auth.CredentialsMatch | src/store/api/authApi.ts:94-96 | A login matches exactly when the submitted pair is the requested role's pair. |
| Auth.Login | src/store/api/authApi.ts:73-136 | Succeeds exactly when both the email and the password equal the role's pair. On success it saves `{email, role, id, now}` and returns the same email, role and id. On failure it returns 401 with the fixed message and writes nothing. |
| Auth.Logout | src/store/api/authApi.ts:138-150 | Always reports success and removes the session unless the removal fails. |
| Auth.ValidateSession | src/store/api/authApi.ts:152-165 | Returns what `getSession` returns, with the same storage effect. |
| UserSlice.UserState.constructor | src/store/slices/userSlice.ts:5-11 | A state with the five given fields. |
| UserSlice.UserState.Initial | src/store/slices/userSlice.ts:14-34 | With a live session: logged in with its email, role and id. Otherwise: logged out with all identity fields null. Either way initialized and consistent. |
| UserSlice.UserState.SetUserData | src/store/slices/userSlice.ts:42-55 | Copies the payload and sets logged in and initialized. |
| UserSlice.UserState.ClearUserData | src/store/slices/userSlice.ts:56-62 | Nulls the identity fields, logs out and sets initialized, whatever the prior state. |
| UserSlice.UserState.InitializeAuth | src/store/slices/userSlice.ts:63-72 | With a live session, copies it and logs in. Without one, only `isInitialized` changes. Login consistency is preserved. |
| Routes.DashboardFor | src/hooks/useLoginForm.ts:90 | Employees go to /employee and retail customers to /retail. It is never the login route. |
| Routes.GuardedRole | src/routes/AppRoutes.tsx:49-70 | Only /employee and /retail are guarded, each for the role whose dashboard it is. |
| Routes.DashboardGuardedForItsRole | src/routes/AppRoutes.tsx:49-70 | Each role's dashboard route is guarded for that same role. |
| RouteGuards.ProtectedRoute | src/components/ProtectedRoute.tsx:11-26 | Renders the page exactly when logged in with the required role. Every other case redirects to the login route. |
| RouteGuards.AuthRedirect | src/components/AuthRedirect.tsx:10-29 | Renders nothing exactly until initialized. Redirects exactly a logged-in user with a role, to that role's dashboard. Otherwise shows the login page. |
| RouteGuards.NoRedirectLoop | src/components/AuthRedirect.tsx:20-25 | Wherever the login guard redirects, the dashboard guard of that route admits the same user. |
| LoginForm.IsEmailAddressMatchesPattern | src/hooks/useLoginForm.ts:51 | The first-'@' decision accepts exactly the strings `^[^\s@]+@[^\s@]+\.[^\s@]+$` matches. |
| LoginForm.ValidateEmail | src/hooks/useLoginForm.ts:50-55 | "Email is required" exactly for the empty string. Valid exactly when the pattern matches. Any other text is "Please enter a valid email address". |
| LoginForm.ValidatePassword | src/hooks/useLoginForm.ts:57-61 | Valid exactly when there are at least 6 characters. Empty gives "required"; 1 to 5 characters give "too short". |
| LoginForm.GetDemoCredentials | src/hooks/useLoginForm.ts:102-112 | The displayed pair is the role's pair in the table login checks against. The label is "Employee" or "Retail Customer". |
| LoginForm.DemoCredentialsLogIn | src/hooks/useLoginForm.ts:102-112 | In every environment, the demo pair the form displays for a role is the pair login accepts for it. |
| LoginForm.GetLoginErrorMessage | src/hooks/useLoginForm.ts:115-126 | Null exactly without an error. The error's own message when it has a non-empty one. Otherwise the generic text. Never an empty message. |
| LoginForm.RejectedLoginMessage | src/hooks/useLoginForm.ts:115-121 | A rejected login shows the API's "Invalid email or password" text. |
| LoginForm.NavigationAfterLogin | src/hooks/useLoginForm.ts:72-93 | Navigates exactly when the response reports success, and then to the form role's dashboard. |
| ErrorFallback.RetryOrDefault | src/components/ErrorFallback.tsx:32 | An omitted `showRetry` is true; a given one is kept. |
| ErrorFallback.GetErrorContent | src/components/ErrorFallback.tsx:34-122 | Loading overrides everything and is the only Info case. With no error, the given or default text. Then, in order: network (status 0 or "network" in the message), server (>= 500), 401, 403, 404. Anything else is generic with the first non-empty description. An omitted `showRetry` counts as true. |
| ErrorFallback.RetryButtonShown | src/components/ErrorFallback.tsx:164 | Never shown while loading; otherwise shown exactly when the content offers it. |
| ErrorFallback.RetryButtonShownIff | src/components/ErrorFallback.tsx:164 | The retry button appears exactly when not loading and either: there is no error and `showRetry` is omitted or true; or the error is network, server or 404; or `showRetry` is omitted or true and the status is neither 401 nor 403. |
| ErrorFallback.OmittedShowRetryOffersRetry | src/components/ErrorFallback.tsx:32 | For a generic error, omitting `showRetry` shows the retry button and passing false hides it. |
| ErrorFallback.NetworkCheckedBeforeServer | src/components/ErrorFallback.tsx:57-78 | A 503 whose message mentions "network" is a connection problem, not a server error. |

## Left out

- Rendering, icons, colours, layout and the Material UI components: only
  the decisions the components take are modelled.
- The pages (`EmployeePage`, `RetailCustomerPage`, `LoginPage`), including
  the page-level check that a fund is in the catalogue. The employee and
  funds APIs return constants; only the fund catalogue and the region
  configuration are kept, as constants.
- The wiring of Redux Toolkit and RTK Query: caching, tag invalidation,
  refetching, `unwrap`. Each endpoint is a method on the storage it touches.
- The simulated delays (`setTimeout`) and all asynchrony. Concurrent
  submissions are not modelled, so neither is the race where the form
  validates against a total the ledger has already moved past.
- JSON text. Stored values are modelled after parsing, as parsed, blank or
  unparseable. A session that parses to a value of the wrong shape, whose
  timestamp arithmetic gives NaN, is not modelled. Neither is a ledger value
  that parses as an object with a fund list whose arithmetic gives NaN. Only
  a ledger value with no fund list to search (`Shapeless`) is modelled.
- The `console.error` logging in the catch blocks of the storage helpers
  (retailApi.ts lines 28 and 40, authApi.ts lines 34, 54 and 63). Logging
  has no effect on state or results.
- `getItem` throwing, for example when storage is disabled. Only failing
  writes and removals are parameters.
- Floating-point arithmetic, `toLocaleString` formatting and the text of
  the amount messages. Amounts are exact reals, and a refusal carries the
  symbol and the number it would display.
- Auth.Login: reads the clock once. The source calls `Date.now()` twice, for
  the session id and for the timestamp, and those may differ by a
  millisecond.
- LoginForm.ValidatePassword: counts characters, not UTF-16 code units as
  JavaScript's `length` does.
- Ledger.ClearInvestment: the source's 500 "Failed to clear investment"
  branch is not modelled, because the save it guards catches its own errors
  and so that branch cannot be reached.
- The error boundary class, the logout button and the app bar. They only
  call the modelled operations or render.

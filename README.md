# Password-manager client: disclosure workflow, login options and lock panels

This project models the decision rules and state machines of five screens of
a password-manager web client, and proves properties of them in Dafny.

- **Credential page** (`ViewCredential`). Before the page asks the server
  for a credential, it runs an eligibility rule. If the cached user or the
  cached credential list is missing, access is denied. Otherwise the number
  of stored credentials plus the user's available slots must not exceed the
  ceiling of the user's role. The request goes to
  `/credential/find/<id>` with GET. A non-200 answer records the server's
  message. A 200 answer writes the credential through to the local cache
  and hands it to the store, either decrypted or as initialised. A failed
  cache write is a fatal error. The mount effect looks the credential up in
  the cache.
- **Login-option navigator** (`LoginOptions`). Step 1 lists the
  verification methods and step 2 shows the chosen method's form. It also
  holds the option-to-form dispatch, the endpoint choice and the loading of
  the cached user.
- **Two-factor form** (`TwoFactorCode`). It checks the field rules (the
  email pattern, 5 to 50 characters; a code of exactly 6 characters). The
  submit decision depends on testing mode, the endpoint, the presence of the
  base URI and the server's status. Typing in an input updates that one
  field.
- **Access-management panel** (`AccessManagement`). The lock, the two-phase
  unlock (start loading, then complete), and which fields and sections are
  shown or editable.
- **Credential card** (`ShowCredential`). The lock toggle, and the email
  sub-record that is rendered only when the credential has one.

The translated texts are symbolic: `Translated(category, locale, index)`.
Calls into the browser database and the server become parameters of the
methods: the cached user and credential list, the server response, and
whether the cache write succeeded. The credential cache is a
`map<nat, Credential>` field. The global store's loading flag, error message
and credential are fields of the component classes. Requests and
login-callback invocations are recorded in sequence fields.

`ViewCredential` renders the card under `components/Sections/ShowCredential`.
That card is not part of this model. The `ShowCredential` module models
`components/ShowCredential`, a separate component.

## Model

| member | source | states |
|---|---|---|
| ViewCredential.CheckUser | src/pages/ViewCredential/index.tsx:107-133 | Access is denied when the cached user or list is missing. Otherwise it is allowed exactly when count + available slots <= the role's ceiling. The ceiling is free or semi-premium; any other role has none, so equality is allowed. |
| ViewCredential.FindEndpoint | src/pages/ViewCredential/index.tsx:83 | The endpoint is the find prefix followed by a non-empty run of decimal digits. |
| ViewCredential.ParseDecimalOfDecimal | src/pages/ViewCredential/index.tsx:83 | The decimal rendering of an id parses back to that id. |
| ViewCredential.RequestedIdOfFindEndpoint | src/pages/ViewCredential/index.tsx:83 | The find endpoint built for an id names exactly that id. |
| ViewCredential.FindEndpointInjective | src/pages/ViewCredential/index.tsx:83 | Distinct ids are requested at distinct endpoints. |
| ViewCredential.Screen | src/pages/ViewCredential/index.tsx:153-174 | The error panel shows exactly when the error flag is set. It shows error text 1, opens the snackbar with the current message, and its retry asks for the non-decrypted credential. |
| ViewCredential.CredentialPage.constructor | src/pages/ViewCredential/index.tsx:39-43 | The page starts with no error, an empty snackbar message and id 0. |
| ViewCredential.CredentialPage.Open | src/pages/ViewCredential/index.tsx:45-54 | For a non-zero id the store is cleared. Then a cache hit initialises the credential, and a miss sets the not-found error. |
| ViewCredential.CredentialPage.ObtainCredential | src/pages/ViewCredential/index.tsx:56-67 | A missing id sets the error and the not-found message and leaves the credential alone. A hit initialises the store with the cached record. Nothing else changes. |
| ViewCredential.CredentialPage.GetFromApi | src/pages/ViewCredential/index.tsx:69-105 | An ineligible call returns false and changes nothing. A missing token returns undefined and changes nothing. An eligible call clears the error, sets loading and issues one GET of the find endpoint. Non-200: the message is recorded as received (absent when the server sent none), loading stays set, and the cache and credential are unchanged; the result is false. 200: loading ends, the credential is upserted into the cache (or the error is fatal), the store holds it decrypted or initialised, and the result is true. The invariant: every request was approved by CheckUser. |
| ViewCredential.CredentialPage.UpdateCredential | src/pages/ViewCredential/index.tsx:135-141 | A successful write upserts by id. A failed write leaves the cache and raises the fatal error. |
| ViewCredential.CredentialPage.FatalError | src/pages/ViewCredential/index.tsx:143-149 | Sets the error, snackbar message 2 and the global error notice 0, and nothing else. |
| LoginOptions.ShowOptions | src/components/Sections/LoginOptions/index.tsx:56-111 | 1 and 2 open the email-code form, with recovery exactly for 2. 3 opens the security-code form. Every other option opens the two-factor form. |
| LoginOptions.Endpoint | src/components/Sections/LoginOptions/index.tsx:54 | The endpoint is "/login" exactly when endpointAlt is false, and "/verify-info" otherwise. |
| LoginOptions.Render | src/components/Sections/LoginOptions/index.tsx:116-144 | The option list shows exactly at step 1, with every button disabled for a robot. The form of ShowOptions(activeOption) shows exactly at step 2. |
| LoginOptions.OfferedTraceStaysInSteps | src/components/Sections/LoginOptions/index.tsx:44-52 | Any sequence of on-screen presses (an enabled option button at step 1, Back at step 2) keeps the step in {1, 2}. At step 2 the active option is a listed one. |
| LoginOptions.ShownFormIsListed | src/components/Sections/LoginOptions/index.tsx:116-144 | From the initial state, along on-screen presses, the view is the option list or the form of a listed option, for any length of the option list. |
| LoginOptions.FallbackNeverShown | src/components/Sections/LoginOptions/index.tsx:56-111 | With at most four options, the option active at step 2 is one of 0-3, so the default branch of the dispatch is never shown. |
| LoginOptions.RobotStaysOnList | src/components/Sections/LoginOptions/index.tsx:116-132 | The option buttons are disabled for a robot, so from the initial state no press is available and the list stays shown. |
| LoginOptions.BackAfterNext | src/components/Sections/LoginOptions/index.tsx:50-52 | Back after Next returns to step 1 and renders exactly what was rendered before. |
| LoginOptions.Navigator.constructor | src/components/Sections/LoginOptions/index.tsx:26-28 | The navigator starts at step 1, option 0, with no user. |
| LoginOptions.Navigator.Mount | src/components/Sections/LoginOptions/index.tsx:30-42 | The user is set only when a token exists and the database returns one. |
| LoginOptions.Navigator.HandleNext | src/components/Sections/LoginOptions/index.tsx:44-48 | The step goes up by 1 and the option becomes the pressed one. |
| LoginOptions.Navigator.HandleBack | src/components/Sections/LoginOptions/index.tsx:50-52 | The step goes down by 1 and the option is unchanged. |
| LoginOptions.Navigator.Press | src/components/Sections/LoginOptions/index.tsx:125 | A press on an on-screen, enabled control applies that control and preserves the step invariant. |
| TwoFactorCode.IndexOf | src/components/Sections/LoginOptions/TwoFactorCode/index.tsx:146 | The result is the first position of the character, or -1 when it is absent. |
| TwoFactorCode.LastIndexOf | src/components/Sections/LoginOptions/TwoFactorCode/index.tsx:146 | The result is the last position of the character, or -1 when it is absent. |
| TwoFactorCode.IsEmailShape | src/components/Sections/LoginOptions/TwoFactorCode/index.tsx:146 | The result is true exactly when the string is local@domain.tld with the pattern's character classes and a 2-4 letter TLD, case-insensitive. |
| TwoFactorCode.ValidateEmail | src/components/Sections/LoginOptions/TwoFactorCode/index.tsx:132-152 | The email is accepted exactly when it matches the pattern and has 5 to 50 characters. Otherwise the reported rule is required (empty), maximum (over 50), minimum (1-4) or pattern. |
| TwoFactorCode.ValidateCode | src/components/Sections/LoginOptions/TwoFactorCode/index.tsx:174-187 | The code is accepted exactly when it has 6 characters. Otherwise the reported rule is required, maximum or minimum; it is never pattern. |
| TwoFactorCode.ErrorMessage | src/components/Sections/LoginOptions/TwoFactorCode/index.tsx:40-42 | The message under a field is the validation text whose index is the failing rule's place in the order required, maximum, minimum, pattern. |
| TwoFactorCode.ErrorMessageInjective | src/components/Sections/LoginOptions/TwoFactorCode/index.tsx:132-152 | Different failing rules show different messages. |
| TwoFactorCode.Validated | src/components/Sections/LoginOptions/TwoFactorCode/index.tsx:132-152 | Both fields report no error exactly when the email matches the pattern with 5 to 50 characters and the code has 6. |
| TwoFactorCode.ShownErrors | src/components/Sections/LoginOptions/TwoFactorCode/index.tsx:159-197 | A text is shown under a field exactly when it reports an error, and the text is that error's message. |
| TwoFactorCode.ErrorText | src/components/Sections/LoginOptions/TwoFactorCode/index.tsx:98-102 | The recorded error is the server message when it is non-empty, else "Error...". It is never empty. |
| TwoFactorCode.TwoFactorForm.constructor | src/components/Sections/LoginOptions/TwoFactorCode/index.tsx:33-51 | The fields start empty. In testing mode they hold the fixture email and 123456. No error is reported and nothing has been submitted. |
| TwoFactorCode.TwoFactorForm.OnSubmit | src/components/Sections/LoginOptions/TwoFactorCode/index.tsx:53-108 | Testing mode changes nothing. A non-"/login" endpoint calls the callback once with the authorised fake response and makes no request. "/login" sets loading; without a base URI nothing else happens. Otherwise one POST is made. When the request is rejected or the body is not JSON, loading stays set and nothing else happens. On 200 loading ends and the callback gets the data. On any other status the error text is recorded and the callback is not called. |
| TwoFactorCode.TwoFactorForm.HandleSubmit | src/components/Sections/LoginOptions/TwoFactorCode/index.tsx:120 | A submission is recorded as attempted and both fields are validated. When either fails, nothing is submitted. When both pass, the form data is submitted. The invariant: after an attempt each field reports what its rules say of its current value, before one no field reports anything. |
| TwoFactorCode.TwoFactorForm.OnChange | src/components/Sections/LoginOptions/TwoFactorCode/index.tsx:110-115 | Only the named field takes the new value. Before any submission attempt the reported errors are kept. After one, the named field is re-validated against its new value and the other field's error is kept. |
| AccessManagement.ViewField | src/components/Sections/AccessManagement/index.tsx:98-155 | A field is disabled exactly when locked. It is a password input exactly when locked. Unlocked, the two email fields are email inputs and the rest are text. |
| AccessManagement.Render | src/components/Sections/AccessManagement/index.tsx:77-186 | The backdrop shows exactly while loading. All five fields are shown, in order, as ViewField gives them for the current lock. The export and secret-key sections show exactly when unlocked outside testing. StopPremium shows exactly inside them for a premium user. |
| AccessManagement.Panel.constructor | src/components/Sections/AccessManagement/index.tsx:56-58 | The panel starts locked and not loading. |
| AccessManagement.Panel.CallApi | src/components/Sections/AccessManagement/index.tsx:62-75 | In testing mode the lock flips at once and loading is untouched. Otherwise loading starts and a completion is scheduled that captures the current lock. |
| AccessManagement.Panel.Complete | src/components/Sections/AccessManagement/index.tsx:67-71 | The completion sets the lock to the negation of the captured value and ends loading. |
| AccessManagement.Panel.Toggle | src/components/Sections/AccessManagement/index.tsx:62-71 | A press and its completion flip the lock exactly once and leave the panel idle. |
| ShowCredential.Render | src/components/ShowCredential/index.tsx:37-49 | The company name shows whatever the lock state is. The email panel shows exactly when the credential has an email sub-record, and it gets the current lock. |
| ShowCredential.Card.constructor | src/components/ShowCredential/index.tsx:33 | The card starts locked. |
| ShowCredential.Card.ToggleLock | src/components/ShowCredential/index.tsx:43 | The lock becomes its negation. |
| ShowCredential.Card.ToggleTwice | src/components/ShowCredential/index.tsx:43 | Two toggles restore the lock and the rendered card. |

## Left out

- Layout, styling, translation tables and `console.log` output. Texts are symbolic.
- The database helpers, the API gateway, `fetch` and the Redux action creators are not part of this model. Their results are parameters and their effects are field assignments.
- `setErrorLoading` is modelled as recording the error message only. Its reducer is not part of this model, so whether it also ends loading is not captured.
- The store's initial loading flag, error and credential are taken to be not loading, no error and cleared.
- The credential id is a natural number. The NaN produced by a non-numeric route parameter is not modelled. Nor are ids from 10^21 up, which JavaScript renders in exponent notation, or ids above 2^53, which a Number does not hold exactly.
- React render order is not modelled. The mount effect of the credential page is one sequential step: the store is cleared first and the awaited lookup initialises it afterwards.
- The asynchronous completions (the unawaited cache write, the server answer, the timer of the access panel) are modelled as running in sequence. A press of the access panel while a completion is pending is modelled: each completion replays the lock value it captured. Other interleavings, of the cache write or the server answer with later events, are not modelled. The timer delay is not modelled.
- Lengths are counted in Unicode characters; JavaScript counts UTF-16 code units, which differ for characters outside the Basic Multilingual Plane.
- The form library's behaviour is assumed, since it is not part of this model: rules are checked in the order required, maximum length, minimum length, pattern; the first failure is reported; an empty value is checked only against required; once a submission has been attempted, a change of a field re-validates that field. The browser's own `required` and `type` checks and the robot-disabled submit button are not modelled.
- The email-code form has no state or handlers. The security-code form is not part of this model. Both appear only as dispatch targets.
- The concrete ceilings, the option-list length and the test fixtures are parameters.

/** The two-factor login form: the field rules checked before submission,
    the submission decision (testing mode, alternative endpoint, base URI,
    server status) and the controlled-input update. */
module TwoFactorCode {
  import opened Common

  // The email pattern ^[A-Z0-9._%+-]+@[A-Z0-9.-]+\.[A-Z]{2,4}$ with the
  // case-insensitive flag: ASCII letters of either case match [A-Z].

  predicate IsLetter(c: char)
  {
    'A' <= c <= 'Z' || 'a' <= c <= 'z'
  }

  predicate IsDigit(c: char)
  {
    '0' <= c <= '9'
  }

  predicate IsLocalChar(c: char)
  {
    IsLetter(c) || IsDigit(c) || c == '.' || c == '_' || c == '%' || c == '+' || c == '-'
  }

  predicate IsDomainChar(c: char)
  {
    IsLetter(c) || IsDigit(c) || c == '.' || c == '-'
  }

  predicate AllLocal(s: string)
  {
    forall k :: 0 <= k < |s| ==> IsLocalChar(s[k])
  }

  predicate AllDomain(s: string)
  {
    forall k :: 0 <= k < |s| ==> IsDomainChar(s[k])
  }

  predicate AllLetters(s: string)
  {
    forall k :: 0 <= k < |s| ==> IsLetter(s[k])
  }

  /** `s` reads local "@" domain "." tld, with the '@' at `at` and the '.'
      before the 2-4 letter top-level domain at `dot`. */
  predicate SplitsAsEmail(s: string, at: int, dot: int)
  {
    && 0 < at && at + 1 < dot && dot < |s|
    && 2 <= |s| - dot - 1 <= 4
    && s[at] == '@' && s[dot] == '.'
    && AllLocal(s[..at]) && AllDomain(s[at + 1..dot]) && AllLetters(s[dot + 1..])
  }

  /** The language of the pattern: some split of `s` fits it. */
  ghost predicate MatchesEmailPattern(s: string)
  {
    exists at, dot :: SplitsAsEmail(s, at, dot)
  }

  /** The first position of `c` in `s`, or -1. */
  function IndexOf(s: string, c: char): (r: int)
    ensures -1 <= r < |s|
    ensures 0 <= r ==> s[r] == c
    ensures forall k :: 0 <= k < |s| && (r < 0 || k < r) ==> s[k] != c
    decreases |s|
  {
    if s == [] then -1
    else if s[0] == c then 0
    else
      var r := IndexOf(s[1..], c);
      if r < 0 then -1 else r + 1
  }

  /** The last position of `c` in `s`, or -1. */
  function LastIndexOf(s: string, c: char): (r: int)
    ensures -1 <= r < |s|
    ensures 0 <= r ==> s[r] == c
    ensures forall k :: r < k < |s| ==> s[k] != c
    decreases |s|
  {
    if s == [] then -1
    else if s[|s| - 1] == c then |s| - 1
    else LastIndexOf(s[..|s| - 1], c)
  }

  /** Neither the local part nor the domain holds an '@', and the top-level
      domain holds no '.', so a fitting split can only put the '@' first and
      the '.' last. */
  lemma SplitIsUnique(s: string, at: int, dot: int)
    requires SplitsAsEmail(s, at, dot)
    ensures at == IndexOf(s, '@') && dot == LastIndexOf(s, '.')
  {
  }

  /** Decides the pattern. */
  function IsEmailShape(s: string): (b: bool)
    ensures b <==> MatchesEmailPattern(s)
  {
    var at, dot := IndexOf(s, '@'), LastIndexOf(s, '.');
    if SplitsAsEmail(s, at, dot) then
      true
    else
      assert !MatchesEmailPattern(s) by {
        if MatchesEmailPattern(s) {
          var a, d :| SplitsAsEmail(s, a, d);
          SplitIsUnique(s, a, d);
        }
      }
      false
  }

  // Field rules, as registered with the form library: required, maximum
  // length, minimum length, pattern. The first failing rule is reported;
  // length and pattern are not checked on an empty value.

  datatype FieldError = Required | MaxLength | MinLength | Pattern

  datatype PatternRule = NoPattern | EmailPattern

  datatype Rules = Rules(required: bool, maxLength: nat, minLength: nat, pattern: PatternRule)

  const EmailRules: Rules := Rules(true, 50, 5, EmailPattern)

  const CodeRules: Rules := Rules(true, 6, 6, NoPattern)

  function ValidateField(value: string, rules: Rules): Option<FieldError>
  {
    if value == "" then
      (if rules.required then Some(Required) else None)
    else if |value| > rules.maxLength then Some(MaxLength)
    else if |value| < rules.minLength then Some(MinLength)
    else if rules.pattern == EmailPattern && !IsEmailShape(value) then Some(Pattern)
    else None
  }

  /** The email field accepts exactly the pattern's strings of 5 to 50
      characters, and names the rule that rejects any other. */
  function ValidateEmail(value: string): (e: Option<FieldError>)
    ensures e == None <==> 5 <= |value| <= 50 && MatchesEmailPattern(value)
    ensures e == Some(Required) <==> value == ""
    ensures e == Some(MaxLength) <==> |value| > 50
    ensures e == Some(MinLength) <==> 0 < |value| < 5
    ensures e == Some(Pattern) <==> 5 <= |value| <= 50 && !MatchesEmailPattern(value)
  {
    ValidateField(value, EmailRules)
  }

  /** The code field accepts exactly the 6-character values. */
  function ValidateCode(value: string): (e: Option<FieldError>)
    ensures e == None <==> |value| == 6
    ensures e == Some(Required) <==> value == ""
    ensures e == Some(MaxLength) <==> |value| > 6
    ensures e == Some(MinLength) <==> 0 < |value| < 6
    ensures e != Some(Pattern)
  {
    ValidateField(value, CodeRules)
  }

  /** The rules in the order they are registered and checked. */
  const RuleOrder: seq<FieldError> := [Required, MaxLength, MinLength, Pattern]

  /** The message shown under a field for the rule it fails: the validation
      text whose index is the rule's place in the registration order. */
  function ErrorMessage(e: FieldError, lng: string): (m: Message)
    ensures m.Translated? && m.category == "form_validation_messages" && m.lng == lng
    ensures 0 <= m.index < |RuleOrder| && RuleOrder[m.index] == e
  {
    match e
    case Required => Translated("form_validation_messages", lng, 0)
    case MaxLength => Translated("form_validation_messages", lng, 1)
    case MinLength => Translated("form_validation_messages", lng, 2)
    case Pattern => Translated("form_validation_messages", lng, 3)
  }

  /** Different failing rules show different messages. */
  lemma ErrorMessageInjective(a: FieldError, b: FieldError, lng: string)
    requires ErrorMessage(a, lng) == ErrorMessage(b, lng)
    ensures a == b
  {
    var m := ErrorMessage(a, lng);
    assert RuleOrder[m.index] == a && RuleOrder[m.index] == b;
  }

  /** The error recorded for a failed login: the server's message when it is
      a non-empty string, a generic text otherwise; never empty. */
  function ErrorText(message: Option<string>): (text: string)
    ensures text != ""
    ensures Truthy(message) ==> text == message.value
    ensures !Truthy(message) ==> text == "Error..."
  {
    if Truthy(message) then message.value else "Error..."
  }

  datatype FormInputs = FormInputs(email: string, twoFactorCode: string)

  datatype FieldName = EmailField | TwoFactorCodeField

  datatype FieldErrors = FieldErrors(email: Option<FieldError>, twoFactorCode: Option<FieldError>)

  /** What each field currently reports: both rules applied to the values. */
  function Validated(data: FormInputs): (errors: FieldErrors)
    ensures errors == FieldErrors(None, None) <==> 5 <= |data.email| <= 50 && MatchesEmailPattern(data.email) && |data.twoFactorCode| == 6
  {
    FieldErrors(ValidateEmail(data.email), ValidateCode(data.twoFactorCode))
  }

  /** The texts shown under the email and the code inputs. */
  datatype FieldTexts = FieldTexts(email: Option<Message>, twoFactorCode: Option<Message>)

  /** A text is shown under a field exactly when it reports an error, and it
      is that error's message. */
  function ShownErrors(errors: FieldErrors, lng: string): (t: FieldTexts)
    ensures t.email.Some? <==> errors.email.Some?
    ensures t.twoFactorCode.Some? <==> errors.twoFactorCode.Some?
    ensures errors.email.Some? ==> t.email == Some(ErrorMessage(errors.email.value, lng))
    ensures errors.twoFactorCode.Some? ==> t.twoFactorCode == Some(ErrorMessage(errors.twoFactorCode.value, lng))
  {
    FieldTexts(
      if errors.email.Some? then Some(ErrorMessage(errors.email.value, lng)) else None,
      if errors.twoFactorCode.Some? then Some(ErrorMessage(errors.twoFactorCode.value, lng)) else None)
  }

  /** What the login callback receives. */
  datatype LoginData = LoginData(token: string, userData: User, userCredentials: seq<Credential>, isAuthorized: Option<bool>)

  /** The server's JSON answer to the login request. */
  datatype LoginResponse = LoginResponse(status: int, data: LoginData, message: Option<string>)

  /** A POST of the form data to the login endpoint. */
  datatype LoginRequest = LoginRequest(url: string, lng: string, body: FormInputs)

  const FakeToken: string := "fake api authorization token"

  const LoginPath: string := "/auth/login/two-factor-code"

  class TwoFactorForm {
    const endpoint: string
    const testing: bool
    const baseUri: Option<string>
    const lng: string
    const testUser: User
    const testCredentials: seq<Credential>

    var formData: FormInputs
    var fieldErrors: FieldErrors
    /** Whether a submission has been attempted; from then on every change
        re-validates the changed field. */
    var submitted: bool
    var loading: bool
    var loadingError: Option<string>
    var authCalls: seq<LoginData>
    var requests: seq<LoginRequest>

    /** Before the first submission no field reports an error; afterwards
        each field reports what its rules say of its current value. */
    ghost predicate Valid()
      reads this
    {
      fieldErrors == if submitted then Validated(formData) else FieldErrors(None, None)
    }

    /** The texts under the two inputs. */
    function Texts(): FieldTexts
      reads this
    {
      ShownErrors(fieldErrors, lng)
    }

    /** The authorised response handed over without a request. */
    function FakeResponse(): LoginData
      reads this
    {
      LoginData(FakeToken, testUser, testCredentials, Some(true))
    }

    /** The mount: empty fields, or the test fixture's values in testing mode. */
    constructor (endpoint: string, testing: bool, baseUri: Option<string>, lng: string,
                 testUser: User, testCredentials: seq<Credential>)
      ensures Valid()
      ensures this.endpoint == endpoint && this.testing == testing && this.baseUri == baseUri
      ensures this.lng == lng && this.testUser == testUser && this.testCredentials == testCredentials
      ensures formData == (if testing then FormInputs(testUser.email, "123456") else FormInputs("", ""))
      ensures fieldErrors == FieldErrors(None, None) && !submitted && !loading && loadingError == None
      ensures authCalls == [] && requests == []
    {
      this.endpoint := endpoint;
      this.testing := testing;
      this.baseUri := baseUri;
      this.lng := lng;
      this.testUser := testUser;
      this.testCredentials := testCredentials;
      formData := FormInputs("", "");
      fieldErrors := FieldErrors(None, None);
      submitted := false;
      loading := false;
      loadingError := None;
      authCalls := [];
      requests := [];
      if testing {
        formData := FormInputs(testUser.email, "123456");
      }
    }

    /** The outcome of one submission of `data`. When a request is made,
        `response` is the server's JSON answer, or None when the request is
        rejected or the body is not JSON: nothing handles that rejection. */
    twostate predicate Submitted(data: FormInputs, response: Option<LoginResponse>)
      reads this
    {
      && formData == old(formData)
      && if testing then
           && loading == old(loading) && loadingError == old(loadingError)
           && authCalls == old(authCalls) && requests == old(requests)
         else if endpoint != "/login" then
           && loading == old(loading) && loadingError == old(loadingError)
           && authCalls == old(authCalls) + [FakeResponse()] && requests == old(requests)
         else if !Truthy(baseUri) then
           && loading && loadingError == old(loadingError)
           && authCalls == old(authCalls) && requests == old(requests)
         else
           && requests == old(requests) + [LoginRequest(baseUri.value + LoginPath, lng, data)]
           && if response.None? then
                loading && loadingError == old(loadingError) && authCalls == old(authCalls)
              else if response.value.status == 200 then
                !loading && loadingError == old(loadingError) && authCalls == old(authCalls) + [response.value.data]
              else
                loading && loadingError == Some(ErrorText(response.value.message)) && authCalls == old(authCalls)
    }

    method OnSubmit(data: FormInputs, response: Option<LoginResponse>)
      modifies this
      ensures Submitted(data, response) && fieldErrors == old(fieldErrors) && submitted == old(submitted)
      ensures testing ==> authCalls == old(authCalls) && loading == old(loading) && requests == old(requests)
      ensures |authCalls| <= |old(authCalls)| + 1 && |requests| <= |old(requests)| + 1
      ensures !testing && endpoint != "/login" ==> authCalls == old(authCalls) + [FakeResponse()] && requests == old(requests)
      ensures requests != old(requests) ==> !testing && endpoint == "/login" && Truthy(baseUri)
    {
      if testing {
        // the data is only logged
      } else {
        if endpoint != "/login" {
          authCalls := authCalls + [FakeResponse()];
        } else {
          loading := true;
          if Truthy(baseUri) {
            requests := requests + [LoginRequest(baseUri.value + LoginPath, lng, data)];
            if response.Some? {
              if response.value.status == 200 {
                loading := false;
                authCalls := authCalls + [response.value.data];
              } else {
                if Truthy(response.value.message) {
                  loadingError := Some(response.value.message.value);
                } else {
                  loadingError := Some("Error...");
                }
              }
            }
          }
        }
      }
    }

    /** Validate both fields; submit the form data only when both pass. */
    method HandleSubmit(response: Option<LoginResponse>)
      requires Valid()
      modifies this
      ensures Valid() && submitted
      ensures fieldErrors == Validated(formData)
      ensures formData == old(formData)
      ensures fieldErrors != FieldErrors(None, None) ==>
        && loading == old(loading) && loadingError == old(loadingError)
        && authCalls == old(authCalls) && requests == old(requests)
      ensures fieldErrors == FieldErrors(None, None) ==>
        5 <= |formData.email| <= 50 && |formData.twoFactorCode| == 6 && Submitted(formData, response)
    {
      submitted := true;
      fieldErrors := Validated(formData);
      if fieldErrors == FieldErrors(None, None) {
        OnSubmit(formData, response);
      }
    }

    /** A keystroke in one input replaces that field only; once a submission
        has been attempted, the form library re-validates that field. */
    method OnChange(name: FieldName, value: string)
      requires Valid()
      modifies this
      ensures Valid() && submitted == old(submitted)
      ensures name == EmailField ==> formData == FormInputs(value, old(formData).twoFactorCode)
      ensures name == TwoFactorCodeField ==> formData == FormInputs(old(formData).email, value)
      ensures !submitted ==> fieldErrors == old(fieldErrors)
      ensures submitted && name == EmailField ==>
        fieldErrors == old(fieldErrors).(email := ValidateEmail(value))
      ensures submitted && name == TwoFactorCodeField ==>
        fieldErrors == old(fieldErrors).(twoFactorCode := ValidateCode(value))
      ensures loading == old(loading) && loadingError == old(loadingError)
      ensures authCalls == old(authCalls) && requests == old(requests)
    {
      match name
      case EmailField =>
        formData := formData.(email := value);
        if submitted {
          fieldErrors := fieldErrors.(email := ValidateEmail(value));
        }
      case TwoFactorCodeField =>
        formData := formData.(twoFactorCode := value);
        if submitted {
          fieldErrors := fieldErrors.(twoFactorCode := ValidateCode(value));
        }
    }
  }
}

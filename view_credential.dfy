/** The credential page: the eligibility rule applied before a credential is
    requested from the server, the request itself, and the page state it
    drives (error flag, snackbar text, the store's loading flag and error, the
    credential held by the store, the cached credential records). */
module ViewCredential {
  import opened Common

  /** Per-role credential ceilings; their concrete values are configuration. */
  datatype MaxSlots = MaxSlots(free: int, semiPremium: int)

  /** The ceiling a role is held to, or None for a role without one. */
  function Ceiling(role: string, limits: MaxSlots): Option<int>
  {
    if role == "free" then Some(limits.free)
    else if role == "semi-premium" then Some(limits.semiPremium)
    else None
  }

  /** The eligibility rule: deny when the cached user or the cached credential
      list is missing; otherwise deny exactly when the stored credentials plus
      the user's available slots exceed the ceiling of the user's role. */
  function CheckUser(user: Option<User>, credentials: Option<seq<Credential>>, limits: MaxSlots): (allowed: bool)
    ensures user.None? || credentials.None? ==> !allowed
    ensures allowed <==>
      && user.Some? && credentials.Some?
      && var ceiling := Ceiling(user.value.role, limits);
         ceiling.Some? ==> |credentials.value| + user.value.slotsAvailable <= ceiling.value
  {
    if user.None? || credentials.None? then
      false
    else if user.value.role == "free" && |credentials.value| + user.value.slotsAvailable > limits.free then
      false
    else if user.value.role == "semi-premium" && |credentials.value| + user.value.slotsAvailable > limits.semiPremium then
      false
    else
      true
  }

  // Decimal rendering of a credential id, as JavaScript's `"" + n` does for
  // a non-negative integer below 10^21 that a Number holds exactly (up to
  // 2^53); larger ids are out of this model's range.

  predicate AllDigits(s: string)
  {
    forall k :: 0 <= k < |s| ==> '0' <= s[k] <= '9'
  }

  function DigitChar(d: nat): (c: char)
    requires d < 10
    ensures '0' <= c <= '9' && c as int - '0' as int == d
  {
    ('0' as int + d) as char
  }

  function Decimal(n: nat): (s: string)
    ensures s != [] && AllDigits(s)
    decreases n
  {
    if n < 10 then [DigitChar(n)] else Decimal(n / 10) + [DigitChar(n % 10)]
  }

  function ParseDecimal(s: string): nat
    requires AllDigits(s)
    decreases |s|
  {
    if s == [] then 0 else 10 * ParseDecimal(s[..|s| - 1]) + (s[|s| - 1] as int - '0' as int)
  }

  lemma {:induction false} ParseDecimalOfDecimal(n: nat)
    ensures ParseDecimal(Decimal(n)) == n
    decreases n
  {
    if n >= 10 {
      var s := Decimal(n);
      assert s[..|s| - 1] == Decimal(n / 10);
      ParseDecimalOfDecimal(n / 10);
    }
  }

  const FindPrefix: string := "/credential/find/"

  /** The endpoint of the request for one credential. */
  function FindEndpoint(id: nat): (e: string)
    ensures |e| > |FindPrefix| && e[..|FindPrefix|] == FindPrefix && AllDigits(e[|FindPrefix|..])
  {
    FindPrefix + Decimal(id)
  }

  /** The credential id a find endpoint names, if it is one. */
  function RequestedId(endpoint: string): Option<nat>
  {
    var n := |FindPrefix|;
    if |endpoint| > n && endpoint[..n] == FindPrefix && AllDigits(endpoint[n..]) then
      Some(ParseDecimal(endpoint[n..]))
    else
      None
  }

  /** The request endpoint names exactly the credential of the page. */
  lemma RequestedIdOfFindEndpoint(id: nat)
    ensures RequestedId(FindEndpoint(id)) == Some(id)
  {
    var e := FindEndpoint(id);
    assert e[..|FindPrefix|] == FindPrefix;
    assert e[|FindPrefix|..] == Decimal(id);
    ParseDecimalOfDecimal(id);
  }

  /** Different credentials are requested at different endpoints. */
  lemma FindEndpointInjective(a: nat, b: nat)
    requires FindEndpoint(a) == FindEndpoint(b)
    ensures a == b
  {
    RequestedIdOfFindEndpoint(a);
    RequestedIdOfFindEndpoint(b);
  }

  /** A request through the API gateway. */
  datatype Request = Request(lng: string, token: string, endpoint: string, httpMethod: string)

  /** The gateway's normalised answer to a find request. */
  datatype CredentialResponse = CredentialResponse(status: int, credential: Credential, message: Option<string>)

  /** What the credential store holds for the page. */
  datatype CredentialState = Cleared | Initialized(credential: Credential) | Decrypted(credential: Credential)

  /** What the page shows: the error panel with its retry button and
      snackbar, or the credential. */
  datatype PageView =
    | ErrorPanel(notice: Message, retryDecrypted: bool, snackbarOpen: bool, snackbar: Message)
    | CredentialPanel

  function Screen(error: bool, snackbarMessage: Message, lng: string): (v: PageView)
    ensures v.ErrorPanel? <==> error
    ensures v.ErrorPanel? ==> v.snackbarOpen && v.snackbar == snackbarMessage && !v.retryDecrypted
    ensures v.ErrorPanel? ==> v.notice == Translated("error_messages", lng, 1)
  {
    if error then ErrorPanel(Translated("error_messages", lng, 1), false, error, snackbarMessage)
    else CredentialPanel
  }

  class CredentialPage {
    const lng: string
    const token: Option<string>
    const limits: MaxSlots

    var id: nat
    var error: bool
    var snackbarMessage: Message
    var loading: bool
    /** The store's error message as last passed to it; None is also what an
        absent server message (undefined) records. */
    var loadingError: Option<string>
    var credential: CredentialState
    var cache: map<nat, Credential>
    var shownError: Option<Message>
    var requests: seq<Request>

    /** The inputs of the eligibility check behind each request. */
    ghost var approvals: seq<(Option<User>, Option<seq<Credential>>)>

    /** Every request went out with a token, by GET, after the eligibility
        check passed; a decrypted credential is only held after a request. */
    ghost predicate Valid()
      reads this
    {
      && |approvals| == |requests|
      && (forall k :: 0 <= k < |approvals| ==> CheckUser(approvals[k].0, approvals[k].1, limits))
      && (forall k :: 0 <= k < |requests| ==> requests[k].token != "" && requests[k].httpMethod == "GET")
      && (credential.Decrypted? ==> requests != [])
    }

    constructor (lng: string, token: Option<string>, limits: MaxSlots, cache: map<nat, Credential>)
      ensures Valid()
      ensures this.lng == lng && this.token == token && this.limits == limits && this.cache == cache
      ensures id == 0 && !error && snackbarMessage == Blank && !loading && loadingError == None
      ensures credential == Cleared && shownError == None && requests == []
    {
      this.lng := lng;
      this.token := token;
      this.limits := limits;
      this.cache := cache;
      id := 0;
      error := false;
      snackbarMessage := Blank;
      loading := false;
      loadingError := None;
      credential := Cleared;
      shownError := None;
      requests := [];
      approvals := [];
    }

    /** The mount effect for the route's credential id: the store is cleared,
        then the cached record, if any, initialises it. */
    method Open(routeId: nat)
      requires Valid()
      modifies this
      ensures Valid()
      ensures id == routeId
      ensures routeId == 0 ==> credential == old(credential) && error == old(error) && snackbarMessage == old(snackbarMessage)
      ensures routeId != 0 && routeId in cache ==>
        credential == Initialized(cache[routeId]) && error == old(error) && snackbarMessage == old(snackbarMessage)
      ensures routeId != 0 && routeId !in cache ==>
        credential == Cleared && error && snackbarMessage == Translated("error_messages", lng, 0)
      ensures loading == old(loading) && loadingError == old(loadingError) && cache == old(cache)
      ensures shownError == old(shownError) && requests == old(requests)
    {
      id := routeId;
      if routeId != 0 {
        credential := Cleared;
        ObtainCredential(routeId);
      }
    }

    /** Look the credential up in the cache: a miss raises the page error
        with the not-found message, a hit initialises the store with it. */
    method ObtainCredential(key: nat)
      requires Valid()
      modifies this
      ensures Valid()
      ensures key !in cache ==>
        error && snackbarMessage == Translated("error_messages", lng, 0) && credential == old(credential)
      ensures key in cache ==>
        credential == Initialized(cache[key]) && error == old(error) && snackbarMessage == old(snackbarMessage)
      ensures id == old(id) && loading == old(loading) && loadingError == old(loadingError) && cache == old(cache)
      ensures shownError == old(shownError) && requests == old(requests) && approvals == old(approvals)
    {
      if key !in cache {
        error := true;
        snackbarMessage := Translated("error_messages", lng, 0);
        return;
      }
      credential := Initialized(cache[key]);
    }

    /** Write a credential through to the cache; a failed write is fatal. */
    method UpdateCredential(c: Credential, putOk: bool)
      requires Valid()
      modifies this
      ensures Valid()
      ensures putOk ==>
        cache == old(cache)[c.id := c] && error == old(error) &&
        snackbarMessage == old(snackbarMessage) && shownError == old(shownError)
      ensures !putOk ==>
        cache == old(cache) && error && snackbarMessage == Translated("error_messages", lng, 2) &&
        shownError == Some(Translated("error_messages", lng, 0))
      ensures id == old(id) && loading == old(loading) && loadingError == old(loadingError)
      ensures credential == old(credential) && requests == old(requests) && approvals == old(approvals)
    {
      if putOk {
        cache := cache[c.id := c];
      } else {
        FatalError();
      }
    }

    /** Raise the page error and the global error notice. */
    method FatalError()
      requires Valid()
      modifies this
      ensures Valid()
      ensures error && snackbarMessage == Translated("error_messages", lng, 2)
      ensures shownError == Some(Translated("error_messages", lng, 0))
      ensures id == old(id) && loading == old(loading) && loadingError == old(loadingError) && cache == old(cache)
      ensures credential == old(credential) && requests == old(requests) && approvals == old(approvals)
    {
      error := true;
      snackbarMessage := Translated("error_messages", lng, 2);
      shownError := Some(Translated("error_messages", lng, 0));
    }

    /** Request the credential from the server. `user` and `credentials` are
        what the database returns for the eligibility check, `response` what
        the gateway answers and `putOk` whether the cache write succeeds. The
        result is JavaScript's: Some(false), undefined (None) or Some(true). */
    method GetFromApi(decrypted: bool, user: Option<User>, credentials: Option<seq<Credential>>,
                      response: CredentialResponse, putOk: bool) returns (result: Option<bool>)
      requires Valid()
      modifies this
      ensures Valid()
      ensures !CheckUser(user, credentials, limits) ==> result == Some(false) && unchanged(this)
      ensures CheckUser(user, credentials, limits) && !Truthy(token) ==> result == None && unchanged(this)
      ensures CheckUser(user, credentials, limits) && Truthy(token) ==>
        && requests == old(requests) + [Request(lng, token.value, FindEndpoint(id), "GET")]
        && id == old(id)
      ensures CheckUser(user, credentials, limits) && Truthy(token) && response.status != 200 ==>
        && result == Some(false) && !error
        && loading && loadingError == response.message
        && cache == old(cache) && credential == old(credential)
        && snackbarMessage == old(snackbarMessage) && shownError == old(shownError)
      ensures CheckUser(user, credentials, limits) && Truthy(token) && response.status == 200 ==>
        && result == Some(true)
        && !loading && loadingError == old(loadingError)
        && credential == (if decrypted then Decrypted(response.credential) else Initialized(response.credential))
        && cache == (if putOk then old(cache)[response.credential.id := response.credential] else old(cache))
        && error == !putOk
        && snackbarMessage == (if putOk then old(snackbarMessage) else Translated("error_messages", lng, 2))
        && shownError == (if putOk then old(shownError) else Some(Translated("error_messages", lng, 0)))
    {
      var isAllowedToSee := CheckUser(user, credentials, limits);
      if !isAllowedToSee {
        return Some(false);
      }
      if !Truthy(token) {
        return None;
      }
      error := false;
      loading := true;
      requests := requests + [Request(lng, token.value, FindEndpoint(id), "GET")];
      approvals := approvals + [(user, credentials)];
      if response.status != 200 {
        loadingError := response.message;
        return Some(false);
      }
      loading := false;
      UpdateCredential(response.credential, putOk);
      if decrypted {
        credential := Decrypted(response.credential);
      } else {
        credential := Initialized(response.credential);
      }
      return Some(true);
    }
  }
}

/**
 * The auth store: the signed-in user (if any), the loading flag and the last error
 * message, and the actions that sign in, sign up, finish an OAuth sign-in, fetch
 * the current user and sign out.
 *
 * Every remote call is given as its outcome (`Result`), and the token lives in the
 * shared `localStorage` model.
 */
module Auth {
  import opened Common
  import opened WebStorage

  /** A user as the API returns it. */
  datatype ApiUser = ApiUser(id: int, name: string, email: string, avatar: Option<string>, provider: Option<string>)

  /** A user as the store keeps it; the provider is always filled in. */
  datatype User = User(id: int, name: string, email: string, avatar: Option<string>, provider: string)

  /** The OAuth providers the application offers. */
  datatype OAuthProvider = GitHub | Google

  function ProviderName(p: OAuthProvider): string {
    match p
    case GitHub => "github"
    case Google => "google"
  }

  const EmailProvider: string := "email"
  const DefaultErrorMessage: string := "An error occurred"

  /** `convertUser`: copies the user and fills a missing or empty provider with 'email'. */
  function ConvertUser(u: ApiUser): (r: User)
    ensures r.id == u.id && r.name == u.name && r.email == u.email && r.avatar == u.avatar
    ensures r.provider == (if Truthy(u.provider) then u.provider.value else EmailProvider)
    ensures r.provider != ""
  {
    User(u.id, u.name, u.email, u.avatar, if Truthy(u.provider) then u.provider.value else EmailProvider)
  }

  /** The API form of a stored user. */
  function ToApiUser(u: User): ApiUser {
    ApiUser(u.id, u.name, u.email, u.avatar, Some(u.provider))
  }

  /** Every user the store can hold reads back unchanged through the API form. */
  lemma ConvertUserRoundTrip(u: User)
    requires u.provider != ""
    ensures ConvertUser(ToApiUser(u)) == u
  {
  }

  /** Converting is idempotent: a converted user converts to itself. */
  lemma ConvertUserIdempotent(u: ApiUser)
    ensures ConvertUser(ToApiUser(ConvertUser(u))) == ConvertUser(u)
  {
    ConvertUserRoundTrip(ConvertUser(u));
  }

  /** The body of an error response: a message, and Laravel's validation errors as the field values in order. */
  datatype ErrorData = ErrorData(message: Option<string>, errors: Option<seq<seq<string>>>)

  /** What an action can catch: an axios error (with the response body, if any), another `Error`, or any other value. */
  datatype Failure =
    | AxiosFailure(data: Option<ErrorData>, message: string)
    | ErrorObject(message: string)
    | NonError

  /** The error has a validation-errors object. */
  function HasErrors(f: Failure): (b: bool)
    ensures b ==> f.AxiosFailure? && f.data.Some?
  {
    f.AxiosFailure? && f.data.Some? && f.data.value.errors.Some?
  }

  /** The response body's message, when it is not empty. */
  function ResponseMessage(f: Failure): (m: Option<string>)
    ensures m.Some? ==> m.value != ""
  {
    if f.AxiosFailure? && f.data.Some? && Truthy(f.data.value.message) then f.data.value.message else None
  }

  /** The first message of the first validation field, when there is one. */
  function FirstFieldMessage(f: Failure): (m: Option<string>)
    ensures m.Some? ==> HasErrors(f) && |f.data.value.errors.value| > 0 && f.data.value.errors.value[0] != []
    ensures m.Some? ==> m.value == f.data.value.errors.value[0][0]
  {
    if HasErrors(f) && |f.data.value.errors.value| > 0 && |f.data.value.errors.value[0]| > 0 then
      Some(f.data.value.errors.value[0][0])
    else None
  }

  /**
   * `handleError` as written: the first field's first message, or with validation
   * errors but no field the response message or the default; without validation
   * errors the response message, the error's message or the default. When the
   * first field holds an empty list it yields `undefined` (None).
   */
  function HandleErrorAsWritten(f: Failure): (r: Option<string>)
    ensures r.None? <==> HasErrors(f) && |f.data.value.errors.value| > 0 && f.data.value.errors.value[0] == []
  {
    match f
    case AxiosFailure(data, message) =>
      if HasErrors(f) then
        var fields := data.value.errors.value;
        if |fields| > 0 then
          (if |fields[0]| > 0 then Some(fields[0][0]) else None)
        else Some(if Truthy(data.value.message) then data.value.message.value else DefaultErrorMessage)
      else
        Some(if data.Some? && Truthy(data.value.message) then data.value.message.value
             else if message != "" then message
             else DefaultErrorMessage)
    case ErrorObject(message) => Some(message)
    case NonError => Some(DefaultErrorMessage)
  }

  /** A 422 response whose first field lists no message: the store's error becomes `undefined`. */
  lemma HandleErrorAsWrittenExample()
    ensures HandleErrorAsWritten(
      AxiosFailure(Some(ErrorData(Some("The given data was invalid."), Some([[], ["The email field is required."]]))),
        "Request failed with status code 422")).None?
  {
  }

  /**
   * `handleError` with the empty first field treated like a missing one: it falls
   * back to the response message or the default, as the branch does when there is
   * no field at all.
   */
  function HandleError(f: Failure): (r: string)
    ensures HasErrors(f) && FirstFieldMessage(f).None? ==>
      r == (if ResponseMessage(f).Some? then ResponseMessage(f).value else DefaultErrorMessage)
  {
    match f
    case AxiosFailure(data, message) =>
      if HasErrors(f) then
        var fields := data.value.errors.value;
        if |fields| > 0 && |fields[0]| > 0 then fields[0][0]
        else if Truthy(data.value.message) then data.value.message.value
        else DefaultErrorMessage
      else if data.Some? && Truthy(data.value.message) then data.value.message.value
      else if message != "" then message
      else DefaultErrorMessage
    case ErrorObject(message) => message
    case NonError => DefaultErrorMessage
  }

  /** Wherever the original yields a message, the corrected one yields the same message. */
  lemma HandleErrorAgrees(f: Failure)
    ensures HandleErrorAsWritten(f).Some? ==> HandleErrorAsWritten(f).value == HandleError(f)
  {
  }

  /**
   * The priority of `handleError`: a validation message first, then the response
   * message, then (for an error without validation errors) the error's own message,
   * then the default.
   */
  lemma HandleErrorPriority(f: Failure)
    ensures FirstFieldMessage(f).Some? ==> HandleError(f) == FirstFieldMessage(f).value
    ensures FirstFieldMessage(f).None? && ResponseMessage(f).Some? ==> HandleError(f) == ResponseMessage(f).value
    ensures f.AxiosFailure? && !HasErrors(f) && ResponseMessage(f).None? && f.message != "" ==> HandleError(f) == f.message
    ensures f.AxiosFailure? && FirstFieldMessage(f).None? && ResponseMessage(f).None? && (HasErrors(f) || f.message == "") ==>
      HandleError(f) == DefaultErrorMessage
    ensures f.ErrorObject? ==> HandleError(f) == f.message
    ensures f.NonError? ==> HandleError(f) == DefaultErrorMessage
  {
  }

  /** What `login`, `signup` and `handleOAuthCallback` resolve with. */
  datatype AuthResponse = AuthResponse(accessToken: string, user: ApiUser)

  /** How an action ends: it resolves, or it throws an `Error` with the store's error message. */
  datatype ActionResult = Succeeded | Failed(message: string)

  class AuthStore {
    var user: Option<User>
    var loading: bool
    var error: Option<string>

    /** A stored user always has a provider. */
    ghost predicate Valid()
      reads this
    {
      user.Some? ==> user.value.provider != ""
    }

    constructor ()
      ensures Valid()
      ensures user == None && !loading && error == None
      ensures !IsAuthenticated()
    {
      user := None;
      loading := false;
      error := None;
    }

    /** `isAuthenticated`: a user is signed in. */
    function IsAuthenticated(): (b: bool)
      reads this
      ensures b <==> user != None
    {
      user.Some?
    }

    /**
     * The shared body of `login`, `signup` and `handleOAuthCallback`: on success the
     * token (if not empty) is stored and the converted user, with the provider
     * replaced when one is given, is signed in; on failure the error is recorded,
     * nothing else changes, and the action throws it.
     */
    method Authenticate(response: Result<AuthResponse, Failure>, local: Storage, provider: Option<string>)
      returns (outcome: ActionResult)
      requires Valid()
      requires provider.Some? ==> provider.value != ""
      modifies this, local
      ensures Valid() && !loading
      ensures response.Ok? ==>
        && outcome == Succeeded && error == None && IsAuthenticated()
        && user == Some(var u := ConvertUser(response.value.user); if provider.Some? then u.(provider := provider.value) else u)
        && local.items == (if response.value.accessToken != "" then old(local.items)[AuthTokenKey := response.value.accessToken] else old(local.items))
      ensures response.Err? ==>
        && outcome == Failed(HandleError(response.error)) && error == Some(HandleError(response.error))
        && user == old(user) && local.items == old(local.items)
    {
      loading := true;
      error := None;
      if response.Ok? {
        var data := response.value;
        if data.accessToken != "" {
          local.SetItem(AuthTokenKey, data.accessToken);
        }
        var u := ConvertUser(data.user);
        if provider.Some? {
          u := u.(provider := provider.value);
        }
        user := Some(u);
        outcome := Succeeded;
      } else {
        error := Some(HandleError(response.error));
        outcome := Failed(error.value);
      }
      loading := false;
    }

    /** `login(email, password)` with the outcome of the login request. */
    method Login(response: Result<AuthResponse, Failure>, local: Storage) returns (outcome: ActionResult)
      requires Valid()
      modifies this, local
      ensures Valid() && !loading
      ensures response.Ok? ==>
        && outcome == Succeeded && error == None && user == Some(ConvertUser(response.value.user))
        && local.items == (if response.value.accessToken != "" then old(local.items)[AuthTokenKey := response.value.accessToken] else old(local.items))
      ensures response.Err? ==>
        && outcome == Failed(HandleError(response.error)) && error == Some(HandleError(response.error))
        && user == old(user) && local.items == old(local.items)
    {
      outcome := Authenticate(response, local, None);
    }

    /** `signup(name, email, password, passwordConfirmation)` with the outcome of the register request. */
    method Signup(response: Result<AuthResponse, Failure>, local: Storage) returns (outcome: ActionResult)
      requires Valid()
      modifies this, local
      ensures Valid() && !loading
      ensures response.Ok? ==>
        && outcome == Succeeded && error == None && user == Some(ConvertUser(response.value.user))
        && local.items == (if response.value.accessToken != "" then old(local.items)[AuthTokenKey := response.value.accessToken] else old(local.items))
      ensures response.Err? ==>
        && outcome == Failed(HandleError(response.error)) && error == Some(HandleError(response.error))
        && user == old(user) && local.items == old(local.items)
    {
      outcome := Authenticate(response, local, None);
    }

    /** `handleOAuthCallback(provider, code)`: like `login`, but the user's provider is the one signed in with. */
    method HandleOAuthCallback(provider: OAuthProvider, response: Result<AuthResponse, Failure>, local: Storage)
      returns (outcome: ActionResult)
      requires Valid()
      modifies this, local
      ensures Valid() && !loading
      ensures response.Ok? ==>
        && outcome == Succeeded && error == None
        && user == Some(ConvertUser(response.value.user).(provider := ProviderName(provider)))
        && local.items == (if response.value.accessToken != "" then old(local.items)[AuthTokenKey := response.value.accessToken] else old(local.items))
      ensures response.Err? ==>
        && outcome == Failed(HandleError(response.error)) && error == Some(HandleError(response.error))
        && user == old(user) && local.items == old(local.items)
    {
      outcome := Authenticate(response, local, Some(ProviderName(provider)));
    }

    /**
     * `loginWithProvider(provider)`: the page is sent to the backend's OAuth endpoint
     * (a failed CSRF-cookie request is ignored), and the store stays loading.
     */
    method LoginWithProvider(baseUrl: string, provider: OAuthProvider) returns (redirect: string)
      modifies this`loading, this`error
      ensures loading && error == None
      ensures redirect == baseUrl + "/api/v1/auth/social/" + ProviderName(provider)
    {
      loading := true;
      error := None;
      redirect := baseUrl + "/api/v1/auth/social/" + ProviderName(provider);
    }

    /**
     * `fetchUser`: nothing at all without a token; otherwise the fetched user is
     * signed in, or on failure the error is recorded and both the token and the user
     * are cleared.
     */
    method FetchUser(response: Result<ApiUser, Failure>, local: Storage)
      requires Valid()
      modifies this, local
      ensures Valid()
      ensures !Truthy(old(local.GetItem(AuthTokenKey))) ==>
        user == old(user) && loading == old(loading) && error == old(error) && local.items == old(local.items)
      ensures Truthy(old(local.GetItem(AuthTokenKey))) && response.Ok? ==>
        !loading && error == None && user == Some(ConvertUser(response.value)) && local.items == old(local.items)
      ensures Truthy(old(local.GetItem(AuthTokenKey))) && response.Err? ==>
        && !loading && error == Some(HandleError(response.error)) && user == None
        && local.items == old(local.items) - {AuthTokenKey}
    {
      var token := local.GetItem(AuthTokenKey);
      if !Truthy(token) {
        return;
      }
      loading := true;
      error := None;
      if response.Ok? {
        user := Some(ConvertUser(response.value));
      } else {
        error := Some(HandleError(response.error));
        local.RemoveItem(AuthTokenKey);
        user := None;
      }
      loading := false;
    }

    /** `logout`: whatever the logout request does, the user and the token are gone and no error is recorded. */
    method Logout(response: Result<(), Failure>, local: Storage)
      requires Valid()
      modifies this, local
      ensures Valid()
      ensures !loading && error == None && user == None && !IsAuthenticated()
      ensures local.items == old(local.items) - {AuthTokenKey}
    {
      loading := true;
      error := None;
      user := None;
      local.RemoveItem(AuthTokenKey);
      loading := false;
    }

    /** `requestPasswordReset(email)` and `resetPassword(...)`: the outcome of the request, recorded as an error on failure. */
    method Request(response: Result<(), Failure>) returns (outcome: ActionResult)
      modifies this`loading, this`error
      ensures !loading
      ensures response.Ok? ==> outcome == Succeeded && error == None
      ensures response.Err? ==> outcome == Failed(HandleError(response.error)) && error == Some(HandleError(response.error))
    {
      loading := true;
      error := None;
      if response.Err? {
        error := Some(HandleError(response.error));
        outcome := Failed(error.value);
      } else {
        outcome := Succeeded;
      }
      loading := false;
    }
  }

  /** After a failed login the user is as signed in (or out) as before: a fresh store stays signed out. */
  method FailedLoginStaysSignedOut(f: Failure) returns (store: AuthStore, outcome: ActionResult)
    ensures outcome.Failed? && !store.IsAuthenticated() && store.error.Some?
  {
    store := new AuthStore();
    var local := new Storage();
    outcome := store.Login(Err(f), local);
  }
}

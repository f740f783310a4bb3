/** The base query every API call goes through: it attaches the bearer token,
    and on a 401 response it signs the user out, remembers where they were and
    sends them to the login page. */
module ApiClient {
  import opened Common
  import opened Strings
  import opened AuthSlice

  const DefaultApiBase := "http://localhost:5001/api"
  const BearerPrefix := "Bearer "

  /** `NEXT_PUBLIC_API_BASE_URL || default`. */
  function BaseUrl(env: Option<string>): (r: string)
    ensures r != ""
    ensures Truthy(env) ==> r == env.value
  {
    OrElse(env, DefaultApiBase)
  }

  /** The value `prepareHeaders` puts under "authorization": present exactly
      when the store holds a truthy token, and the token reads back from it. */
  function Authorization(token: Option<string>): (r: Option<string>)
    ensures r.Some? <==> Truthy(token)
    ensures r.Some? ==> StartsWith(r.value, BearerPrefix) && r.value[|BearerPrefix|..] == token.value
  {
    if Truthy(token) then Some(BearerPrefix + token.value) else None
  }

  /** The header the hand-written `fetch` calls send: "Bearer " followed by
      whatever local storage holds under "accessToken", or by "null" when it
      holds nothing, since the template literal prints a missing item as
      "null". */
  function StoredBearer(local: map<string, string>): (r: string)
    ensures StartsWith(r, BearerPrefix)
    ensures TokenKey in local ==> r[|BearerPrefix|..] == local[TokenKey]
    ensures TokenKey !in local ==> r == "Bearer null"
  {
    BearerPrefix + GetItem(local, TokenKey).GetOr("null")
  }

  /** The two ways of authorizing agree whenever the store holds the stored
      token and it is not empty; without a stored token only the hand-written
      calls send a header. */
  lemma StoredBearerAgrees(local: map<string, string>)
    ensures TokenKey in local && local[TokenKey] != "" ==>
              Authorization(Some(local[TokenKey])) == Some(StoredBearer(local))
    ensures TokenKey !in local ==> Authorization(None).None? && StoredBearer(local) == "Bearer null"
  {
  }

  /** The request headers being prepared. */
  class Headers {
    var entries: map<string, string>

    constructor (initial: map<string, string>)
      ensures entries == initial
    {
      entries := initial;
    }

    /** `prepareHeaders`: sets "authorization" when there is a token and leaves
        every other header, and a token-less request, as it was. */
    method Prepare(token: Option<string>)
      modifies this
      ensures Authorization(token).Some? ==> entries == old(entries)["authorization" := Authorization(token).value]
      ensures Authorization(token).None? ==> entries == old(entries)
    {
      var auth := Authorization(token);
      if auth.Some? {
        entries := entries["authorization" := auth.value];
      }
    }
  }

  /** What `fetchBaseQuery` returned: data, or an error whose `status` is an
      HTTP code or one of the library's non-numeric error kinds. */
  datatype QueryResult = Data | QueryError(httpStatus: Option<int>)

  predicate IsUnauthorized(r: QueryResult) {
    r.QueryError? && r.httpStatus == Some(401)
  }

  /** The return path is remembered unless the user is already on the login
      or registration page. */
  predicate SavesReturnPath(path: string) {
    path != "/auth/login" && path != "/auth/register"
  }

  /** The full-page redirect happens only outside the "/auth" pages. */
  predicate RedirectsToLogin(path: string) {
    !StartsWith(path, "/auth")
  }

  /** Whenever the user is sent to the login page, the page they left is
      remembered first, so login can bring them back. */
  lemma RedirectRemembersPath(path: string)
    requires RedirectsToLogin(path)
    ensures SavesReturnPath(path)
  {
    assert "/auth/login"[..5] == "/auth";
    assert "/auth/register"[..5] == "/auth";
  }

  /** The converse fails: on an "/auth" page other than login and registration
      the path is remembered but the user stays where they are. */
  lemma AuthSubpageRememberedNotRedirected()
    ensures SavesReturnPath("/auth/reset") && !RedirectsToLogin("/auth/reset")
  {
    assert "/auth/reset"[..5] == "/auth";
  }

  /** `baseQueryWithReauth`: the result is passed through unchanged; a 401 signs
      the user out and, in a browser, records the return path and leaves for
      the login page. Nothing happens on any other result. */
  method BaseQueryWithReauth(result: QueryResult, store: AuthStore, browser: Browser, hasWindow: bool)
    returns (r: QueryResult)
    modifies store, browser`localStorage, browser`sessionStorage, browser`navigations
    ensures r == result
    ensures IsUnauthorized(result) ==> store.State() == Reduce(old(store.State()), ClearAuth)
    ensures IsUnauthorized(result) ==> browser.localStorage == Persist(old(browser.localStorage), ClearAuth)
    ensures !IsUnauthorized(result) ==>
              store.State() == old(store.State()) && browser.localStorage == old(browser.localStorage)
    ensures browser.sessionStorage ==
              if IsUnauthorized(result) && hasWindow && SavesReturnPath(browser.pathname)
              then old(browser.sessionStorage)[RedirectKey := browser.pathname]
              else old(browser.sessionStorage)
    ensures browser.navigations ==
              if IsUnauthorized(result) && hasWindow && RedirectsToLogin(browser.pathname)
              then old(browser.navigations) + [Load("/auth/login")]
              else old(browser.navigations)
  {
    r := result;
    if result.QueryError? && result.httpStatus == Some(401) {
      store.ClearAuth(browser);
      if hasWindow {
        var currentPath := browser.pathname;
        if currentPath != "/auth/login" && currentPath != "/auth/register" {
          browser.sessionStorage := browser.sessionStorage[RedirectKey := currentPath];
        }
        if !StartsWith(currentPath, "/auth") {
          browser.Navigate(Load("/auth/login"));
        }
      }
    }
  }
}

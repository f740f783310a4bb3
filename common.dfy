/** Values shared by the client's components: optional values (`null` /
    `undefined`), JavaScript truthiness of strings, file metadata, request
    outcomes, the error text shown to the user, and the browser state that the
    session code reads and writes (storage, current path, navigations). */
module Common {

  datatype Option<T> = None | Some(value: T) {
    function GetOr(default: T): T {
      match this
      case Some(v) => v
      case None => default
    }
  }

  /** `!!x` for a `string | null | undefined`: present and not "". */
  predicate Truthy(s: Option<string>) {
    s.Some? && s.value != ""
  }

  /** `x || fallback` for a string that may be missing. */
  function OrElse(s: Option<string>, fallback: string): (r: string)
    ensures Truthy(s) ==> r == s.value
    ensures !Truthy(s) ==> r == fallback
  {
    if Truthy(s) then s.value else fallback
  }

  /** The parts of a browser `File` the client looks at. */
  datatype FileInfo = FileInfo(name: string, mimeType: string, size: nat)

  /** How a `fetch` call ended: a response with `ok`, a response without `ok`
      (carrying the body's `message`, if any), or a thrown error with its message. */
  datatype FetchOutcome = Ok | NotOk(serverMessage: Option<string>) | Thrown(errorMessage: string)

  /** How an RTK Query mutation's `unwrap()` ended: fulfilled, or rejected with
      `error.data.message` when the server sent one. */
  datatype MutationOutcome = Fulfilled | Rejected(dataMessage: Option<string>)

  /** `err?.data?.message || fallback`, the text shown when a mutation fails. */
  function MutationErrorText(o: MutationOutcome, fallback: string): (r: string)
    requires o.Rejected?
    ensures r != "" || fallback == ""
  {
    OrElse(o.dataMessage, fallback)
  }

  /** The text of a failed hand-written fetch: `throw new Error(data.message ||
      fallback)` for a non-ok response, then `err.message || fallback`. */
  function FetchErrorText(o: FetchOutcome, fallback: string): (r: string)
    requires !o.Ok?
    ensures r != "" || fallback == ""
  {
    match o
    case NotOk(m) => OrElse(m, fallback)
    case Thrown(e) => OrElse(Some(e), fallback)
  }

  /** A client-side `router.push(path)` or a full load through `window.location.href`. */
  datatype Navigation = Push(path: string) | Load(url: string)

  const TokenKey := "accessToken"
  const RedirectKey := "redirectAfterLogin"

  /** The browser as the session code sees it. */
  class Browser {
    var pathname: string
    var localStorage: map<string, string>
    var sessionStorage: map<string, string>
    var navigations: seq<Navigation>

    constructor (path: string, local: map<string, string>)
      ensures pathname == path && localStorage == local
      ensures sessionStorage == map[] && navigations == []
    {
      pathname := path;
      localStorage := local;
      sessionStorage := map[];
      navigations := [];
    }

    method Navigate(n: Navigation)
      modifies this`navigations
      ensures navigations == old(navigations) + [n]
    {
      navigations := navigations + [n];
    }
  }

  /** `localStorage.getItem(key)`. */
  function GetItem(store: map<string, string>, key: string): (r: Option<string>)
    ensures r.Some? <==> key in store
    ensures r.Some? ==> r.value == store[key]
  {
    if key in store then Some(store[key]) else None
  }
}

/** The session slice of the Redux store: the access token, the signed-in user,
    whether start-up authentication has finished, and whether the real-time
    connection is up. `Reduce` is the reducer as a function of the state; the
    class `AuthStore` is the slice as the client holds it, updated in place. */
module AuthSlice {
  import opened Common

  datatype User = User(
    id: string,
    email: string,
    username: string,
    displayName: string,
    avatarUrl: Option<string>,
    statusMessage: Option<string>,
    role: string)

  datatype AuthState = AuthState(
    accessToken: Option<string>,
    currentUser: Option<User>,
    isInitialized: bool,
    isOnline: bool)

  /** The five actions of the slice. */
  datatype Action =
    | SetAuth(token: string)
    | SetCurrentUser(user: User)
    | SetInitialized
    | SetOnlineStatus(online: bool)
    | ClearAuth

  /** `loadTokenFromStorage()`: null when there is no window (server rendering),
      otherwise whatever local storage holds under "accessToken". */
  function LoadToken(hasWindow: bool, local: map<string, string>): (r: Option<string>)
    ensures !hasWindow ==> r.None?
    ensures hasWindow ==> (r.Some? <==> TokenKey in local)
  {
    if hasWindow then GetItem(local, TokenKey) else None
  }

  /** The state the store starts in: no user, not initialized, offline. */
  function InitialState(stored: Option<string>): AuthState {
    AuthState(stored, None, false, false)
  }

  /** The reducer. Its contract is the frame of each action: a field changes
      only under the actions that own it, and `isInitialized` never goes back
      to false. */
  function Reduce(s: AuthState, a: Action): (r: AuthState)
    ensures s.isInitialized ==> r.isInitialized
    ensures r.accessToken != s.accessToken ==> a.SetAuth? || a.ClearAuth?
    ensures r.currentUser != s.currentUser ==> a.SetCurrentUser? || a.ClearAuth?
    ensures r.isInitialized != s.isInitialized ==> a.SetCurrentUser? || a.SetInitialized? || a.ClearAuth?
    ensures r.isOnline != s.isOnline ==> a.SetOnlineStatus? || a.ClearAuth?
    ensures a.SetAuth? ==> r.accessToken == Some(a.token)
    ensures a.SetCurrentUser? ==> r.currentUser == Some(a.user) && r.isInitialized
    ensures a.SetInitialized? ==> r.isInitialized
    ensures a.SetOnlineStatus? ==> r.isOnline == a.online
    ensures a.ClearAuth? ==> r == AuthState(None, None, true, false)
  {
    match a
    case SetAuth(t) => s.(accessToken := Some(t))
    case SetCurrentUser(u) => s.(currentUser := Some(u), isInitialized := true)
    case SetInitialized => s.(isInitialized := true)
    case SetOnlineStatus(b) => s.(isOnline := b)
    case ClearAuth => AuthState(None, None, true, false)
  }

  /** What the reducers write to local storage: `setAuth` stores the token,
      `clearAuth` removes it, the others leave storage alone. */
  function Persist(local: map<string, string>, a: Action): (r: map<string, string>)
    ensures forall k :: k != TokenKey ==> GetItem(r, k) == GetItem(local, k)
    ensures !a.SetAuth? && !a.ClearAuth? ==> r == local
  {
    match a
    case SetAuth(t) => local[TokenKey := t]
    case ClearAuth => local - {TokenKey}
    case _ => local
  }

  /** Dispatching a sequence of actions, oldest first. */
  function ReduceAll(s: AuthState, acts: seq<Action>): AuthState
  {
    if acts == [] then s else Reduce(ReduceAll(s, acts[..|acts| - 1]), acts[|acts| - 1])
  }

  /** What a sequence of actions, oldest first, leaves in local storage. */
  function PersistAll(local: map<string, string>, acts: seq<Action>): map<string, string>
  {
    if acts == [] then local else Persist(PersistAll(local, acts[..|acts| - 1]), acts[|acts| - 1])
  }

  /** `isInitialized` is a one-way latch: once set, no sequence of actions unsets it. */
  lemma {:induction false} InitializedLatch(s: AuthState, acts: seq<Action>)
    requires s.isInitialized
    ensures ReduceAll(s, acts).isInitialized
  {
    if acts != [] {
      InitializedLatch(s, acts[..|acts| - 1]);
    }
  }

  /** Whatever is dispatched, the token in the store and the token in local
      storage stay equal, provided they were equal to begin with (as they are
      when the store is created from storage). */
  lemma {:induction false} StorageMirrorsToken(s: AuthState, local: map<string, string>, acts: seq<Action>)
    requires s.accessToken == GetItem(local, TokenKey)
    ensures ReduceAll(s, acts).accessToken == GetItem(PersistAll(local, acts), TokenKey)
  {
    if acts != [] {
      StorageMirrorsToken(s, local, acts[..|acts| - 1]);
    }
  }

  /** `setInitialized` twice is `setInitialized` once. */
  lemma SetInitializedIdempotent(s: AuthState)
    ensures Reduce(Reduce(s, SetInitialized), SetInitialized) == Reduce(s, SetInitialized)
  {
  }

  /** The slice as the store holds it, each reducer a method that assigns the
      fields of the state in place. */
  class AuthStore {
    var accessToken: Option<string>
    var currentUser: Option<User>
    var isInitialized: bool
    var isOnline: bool

    function State(): AuthState
      reads this
    {
      AuthState(accessToken, currentUser, isInitialized, isOnline)
    }

    constructor (stored: Option<string>)
      ensures State() == InitialState(stored)
    {
      accessToken := stored;
      currentUser := None;
      isInitialized := false;
      isOnline := false;
    }

    method SetAuth(token: string, browser: Browser)
      modifies this, browser`localStorage
      ensures State() == Reduce(old(State()), Action.SetAuth(token))
      ensures browser.localStorage == Persist(old(browser.localStorage), Action.SetAuth(token))
    {
      accessToken := Some(token);
      browser.localStorage := browser.localStorage[TokenKey := token];
    }

    method SetCurrentUser(user: User)
      modifies this
      ensures State() == Reduce(old(State()), Action.SetCurrentUser(user))
    {
      currentUser := Some(user);
      isInitialized := true;
    }

    method SetInitialized()
      modifies this
      ensures State() == Reduce(old(State()), Action.SetInitialized)
    {
      isInitialized := true;
    }

    method SetOnlineStatus(online: bool)
      modifies this
      ensures State() == Reduce(old(State()), Action.SetOnlineStatus(online))
    {
      isOnline := online;
    }

    method ClearAuth(browser: Browser)
      modifies this, browser`localStorage
      ensures State() == Reduce(old(State()), Action.ClearAuth)
      ensures browser.localStorage == Persist(old(browser.localStorage), Action.ClearAuth)
    {
      accessToken := None;
      currentUser := None;
      isInitialized := true;
      isOnline := false;
      browser.localStorage := browser.localStorage - {TokenKey};
    }

    /** `dispatch(action)`: runs the reducer of that action. */
    method Dispatch(a: Action, browser: Browser)
      modifies this, browser`localStorage
      ensures State() == Reduce(old(State()), a)
      ensures browser.localStorage == Persist(old(browser.localStorage), a)
    {
      match a
      case SetAuth(t) => SetAuth(t, browser);
      case SetCurrentUser(u) => SetCurrentUser(u);
      case SetInitialized => SetInitialized();
      case SetOnlineStatus(b) => SetOnlineStatus(b);
      case ClearAuth => ClearAuth(browser);
    }
  }
}

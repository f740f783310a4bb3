/** The real-time connection provider: it opens one socket.io connection while
    the user is authenticated, closes it when they are not, and mirrors the
    connection's state into the session slice. Sockets are numbered handles; a
    handle is live from `io(...)` until `disconnect()`. */
module SocketClient {
  import opened Common
  import opened Strings
  import opened AuthSlice

  const DefaultSocketUrl := "http://localhost:5001"
  const ReconnectionDelayMs := 1000
  const ReconnectionAttempts := 5

  /** `!!accessToken && !!currentUser`. */
  predicate IsAuthenticated(s: AuthState) {
    Truthy(s.accessToken) && s.currentUser.Some?
  }

  /** The socket URL as the provider computes it: `env?.replace("/api", "")`,
      falling back to the default when that is missing or empty. `replace`
      with a string pattern removes the FIRST "/api", wherever it is. */
  function SocketUrlAsWritten(env: Option<string>): (r: string)
    ensures r != ""
    ensures env.Some? && IndexOf(env.value, "/api") == -1 && env.value != "" ==> r == env.value
  {
    var replaced := if env.Some? then Some(ReplaceFirst(env.value, "/api", "")) else None;
    OrElse(replaced, DefaultSocketUrl)
  }

  /** In "https://api.example.com/api" the first "/api" starts at index 7. */
  lemma FirstApiInApiHost(s: string)
    requires s == "https://api.example.com/api"
    ensures IndexOf(s, "/api") == 7
  {
    assert s[7..11] == "/api";
    forall i | 0 <= i < 7 ensures !OccursAt(s, "/api", i) {
      assert s[i..i + 4][1] == s[i + 1] == s[..8][i + 1];
      assert s[..8] == "https://";
    }
    IndexOfIsFirst(s, "/api", 7);
  }

  /** A base URL whose host starts with "api" loses the "/" before it: the first
      "/api" is the one after "https:/", not the path at the end. */
  lemma SocketUrlAsWrittenBreaksApiHost(s: string)
    requires s == "https://api.example.com/api"
    ensures SocketUrlAsWritten(Some(s)) == "https:/.example.com/api"
  {
    FirstApiInApiHost(s);
    assert s[..7] == "https:/" && s[11..] == ".example.com/api";
    assert ReplaceFirst(s, "/api", "") == "https:/.example.com/api";
  }

  /** The socket URL with only a trailing "/api" path removed: the API base
      with its path dropped, falling back to the default as before. */
  function SocketUrl(env: Option<string>): (r: string)
    ensures r != ""
    ensures !Truthy(env) ==> r == DefaultSocketUrl
  {
    var stripped :=
      if env.Some? && EndsWith(env.value, "/api") then Some(env.value[..|env.value| - 4])
      else env;
    OrElse(stripped, DefaultSocketUrl)
  }

  /** The corrected URL of "<origin>/api" is the origin, whatever the origin
      contains; in particular the default API base gives the default socket URL. */
  lemma SocketUrlDropsApiPath(origin: string)
    requires origin != ""
    ensures SocketUrl(Some(origin + "/api")) == origin
  {
    var s := origin + "/api";
    assert s[|s| - 4..] == "/api";
    assert s[..|s| - 4] == origin;
  }

  /** On an "<origin>/api" base whose origin has no "/api" of its own, the
      provider's computation already gives the origin: the discrepancy needs an
      inner "/api". */
  lemma SocketUrlAgreesWithoutInnerApi(origin: string)
    requires origin != ""
    requires IndexOf(origin, "/api") == -1
    ensures SocketUrlAsWritten(Some(origin + "/api")) == SocketUrl(Some(origin + "/api"))
  {
    var s := origin + "/api";
    assert OccursAt(s, "/api", |origin|);
    forall i | 0 <= i < |origin| ensures !OccursAt(s, "/api", i) {
      if i <= |origin| - 4 {
        assert !OccursAt(origin, "/api", i);
        assert s[i..i + 4] == origin[i..i + 4];
      } else if i + 4 <= |s| {
        assert s[i..i + 4][|origin| - i] == s[|origin|] == '/';
      }
    }
    assert IndexOf(s, "/api") == |origin|;
    assert s[..|origin|] + "" + s[|origin| + 4..] == origin;
    SocketUrlDropsApiPath(origin);
  }

  /** The options passed to `io(url, ...)`. */
  datatype ConnectOptions = ConnectOptions(
    url: string,
    token: string,
    transports: seq<string>,
    reconnection: bool,
    reconnectionDelay: nat,
    reconnectionAttempts: nat)

  /** Events the server or the transport delivers to a socket. */
  datatype SocketEvent =
    | Connect
    | Disconnect
    | ConnectError
    | Error
    | Unauthorized
    | AvatarUpdated(userId: string, avatarUrl: Option<string>)

  /** The values the effect depends on: `[isAuthenticated, accessToken]`. */
  datatype Deps = Deps(authenticated: bool, token: Option<string>)

  class SocketProvider {
    const apiBaseEnv: Option<string>
    /** The `socket` state. */
    var socket: Option<nat>
    /** The `isConnected` state. */
    var isConnected: bool
    /** The socket the pending effect cleanup will disconnect. */
    var cleanup: Option<nat>
    /** The user the current socket's handlers closed over. */
    var capturedUser: Option<User>
    /** The options of the last socket opened. */
    var options: Option<ConnectOptions>
    var live: set<nat>
    var nextHandle: nat
    /** The dependencies of the effect's last run; none before the first. */
    var lastDeps: Option<Deps>

    /** Only the socket of the current effect can be live, it is the `socket`
        state, and the provider is connected only through a live socket. */
    ghost predicate Valid()
      reads this
    {
      && (forall h :: h in live ==> cleanup == Some(h))
      && socket == cleanup
      && (cleanup.Some? ==> cleanup.value < nextHandle)
      && (isConnected ==> socket.Some? && socket.value in live)
    }

    constructor (env: Option<string>)
      ensures Valid()
      ensures apiBaseEnv == env
      ensures socket.None? && !isConnected && live == {} && lastDeps.None?
    {
      apiBaseEnv := env;
      socket := None;
      isConnected := false;
      cleanup := None;
      capturedUser := None;
      options := None;
      live := {};
      nextHandle := 0;
      lastDeps := None;
    }

    /** There is never more than one open connection. */
    lemma AtMostOneConnection()
      requires Valid()
      ensures |live| <= 1
      ensures isConnected ==> live == {socket.value}
    {
      if cleanup.Some? {
        if cleanup.value in live {
          assert live == {cleanup.value};
        } else {
          assert live == {};
        }
      } else {
        assert live == {};
      }
    }

    /** One run of the effect: the previous run's cleanup, then the body. */
    method RunEffect(store: AuthStore)
      requires Valid()
      modifies this, store
      ensures Valid()
      ensures lastDeps == old(lastDeps)
      ensures !isConnected
      ensures var s := old(store.State());
              store.State() ==
                if old(cleanup).Some? || (!IsAuthenticated(s) && old(socket).Some?)
                then Reduce(s, SetOnlineStatus(false)) else s
      ensures !IsAuthenticated(old(store.State())) ==>
                socket.None? && live == {} && nextHandle == old(nextHandle)
      ensures IsAuthenticated(old(store.State())) ==>
                && socket == Some(old(nextHandle))
                && live == {old(nextHandle)}
                && nextHandle == old(nextHandle) + 1
                && capturedUser == old(store.currentUser)
                && options == Some(ConnectOptions(SocketUrl(apiBaseEnv), old(store.accessToken).value,
                                                  ["websocket", "polling"], true,
                                                  ReconnectionDelayMs, ReconnectionAttempts))
    {
      var snapshot := socket;
      if cleanup.Some? {
        live := live - {cleanup.value};
        socket := None;
        isConnected := false;
        store.SetOnlineStatus(false);
        cleanup := None;
      }
      if !IsAuthenticated(store.State()) {
        if snapshot.Some? {
          live := live - {snapshot.value};
          socket := None;
          isConnected := false;
          store.SetOnlineStatus(false);
        }
        return;
      }
      var h := nextHandle;
      nextHandle := nextHandle + 1;
      live := live + {h};
      options := Some(ConnectOptions(SocketUrl(apiBaseEnv), store.accessToken.value,
                                     ["websocket", "polling"], true,
                                     ReconnectionDelayMs, ReconnectionAttempts));
      capturedUser := store.currentUser;
      socket := Some(h);
      cleanup := Some(h);
    }

    /** A render of the provider: the effect runs only when its dependencies
        differ from those of its last run. */
    method OnRender(store: AuthStore)
      requires Valid()
      modifies this, store
      ensures Valid()
      ensures lastDeps == Some(Deps(IsAuthenticated(old(store.State())), old(store.accessToken)))
      ensures old(lastDeps) == lastDeps ==>
                && store.State() == old(store.State())
                && socket == old(socket) && isConnected == old(isConnected) && live == old(live)
      ensures old(lastDeps) != lastDeps ==>
                && !isConnected
                && (var s := old(store.State());
                    store.State() ==
                      if old(cleanup).Some? || (!IsAuthenticated(s) && old(socket).Some?)
                      then Reduce(s, SetOnlineStatus(false)) else s)
      ensures old(lastDeps) != lastDeps && !IsAuthenticated(old(store.State())) ==>
                socket.None? && live == {}
      ensures old(lastDeps) != lastDeps && IsAuthenticated(old(store.State())) ==>
                && socket == Some(old(nextHandle))
                && live == {old(nextHandle)}
                && options == Some(ConnectOptions(SocketUrl(apiBaseEnv), old(store.accessToken).value,
                                                  ["websocket", "polling"], true,
                                                  ReconnectionDelayMs, ReconnectionAttempts))
    {
      var deps := Deps(IsAuthenticated(store.State()), store.accessToken);
      if lastDeps != Some(deps) {
        RunEffect(store);
        lastDeps := Some(deps);
      }
    }

    /** An event delivered to socket `h`. A socket that was disconnected hears
        nothing. Connection events set `isConnected` and the online flag
        together; "unauthorized" closes the socket (its own disconnect event
        clears `isConnected`); "avatar-updated" for the captured user stores
        that user with the new avatar. */
    method OnEvent(h: nat, e: SocketEvent, store: AuthStore)
      requires Valid()
      modifies this, store
      ensures Valid()
      ensures socket == old(socket) && lastDeps == old(lastDeps) && nextHandle == old(nextHandle)
      ensures h !in old(live) ==> store.State() == old(store.State()) && isConnected == old(isConnected) && live == old(live)
      ensures h in old(live) && e.Connect? ==>
                isConnected && store.State() == Reduce(old(store.State()), SetOnlineStatus(true))
      ensures h in old(live) && (e.Disconnect? || e.ConnectError? || e.Unauthorized?) ==>
                !isConnected && store.State() == Reduce(old(store.State()), SetOnlineStatus(false))
      ensures h in old(live) && e.Unauthorized? ==> live == old(live) - {h}
      ensures h in old(live) && !e.Unauthorized? ==> live == old(live)
      ensures h in old(live) && e.Error? ==> store.State() == old(store.State()) && isConnected == old(isConnected)
      ensures h in old(live) && e.AvatarUpdated? ==>
                isConnected == old(isConnected) &&
                store.State() ==
                  if capturedUser.Some? && capturedUser.value.id == e.userId
                  then Reduce(old(store.State()), SetCurrentUser(capturedUser.value.(avatarUrl := e.avatarUrl)))
                  else old(store.State())
    {
      if h !in live {
        return;
      }
      match e
      case Connect =>
        isConnected := true;
        store.SetOnlineStatus(true);
      case Disconnect =>
        isConnected := false;
        store.SetOnlineStatus(false);
      case ConnectError =>
        isConnected := false;
        store.SetOnlineStatus(false);
      case Error =>
      case Unauthorized =>
        live := live - {h};
        isConnected := false;
        store.SetOnlineStatus(false);
      case AvatarUpdated(userId, avatarUrl) =>
        if capturedUser.Some? && capturedUser.value.id == userId {
          store.SetCurrentUser(capturedUser.value.(avatarUrl := avatarUrl));
        }
    }
  }
}

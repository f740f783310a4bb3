/** The start-up authentication gate: decide whether to fetch the signed-in
    user, turn the fetch result into session actions, and show a loading screen
    until the session is initialized. */
module AuthProvider {
  import opened Common
  import opened AuthSlice

  /** What the `useMeQuery` hook reports: skipped (also what a skipped query
      shows), in flight, succeeded with or without data, or failed. */
  datatype MeQuery = Skipped | Loading | Succeeded(data: Option<User>) | Failed

  /** `shouldFetchUser`: a token, no user yet, and not initialized. */
  predicate ShouldFetchUser(s: AuthState) {
    Truthy(s.accessToken) && s.currentUser.None? && !s.isInitialized
  }

  /** The hook's report as the provider sees it: `skip: !shouldFetchUser`
      hides the request entirely. */
  function Observed(s: AuthState, server: MeQuery): (q: MeQuery)
    ensures !ShouldFetchUser(s) ==> q.Skipped?
    ensures ShouldFetchUser(s) ==> q == server
  {
    if ShouldFetchUser(s) then server else Skipped
  }

  /** The actions the initialization effect dispatches, in order, for the
      state `s` of the render and the hook's report `q`. */
  function InitEffect(s: AuthState, q: MeQuery): (acts: seq<Action>)
    ensures |acts| <= 3
    ensures !Truthy(s.accessToken) ==> acts == [SetInitialized]
    ensures !Truthy(s.accessToken) ==> ReduceAll(s, acts) == s.(isInitialized := true)
    ensures Truthy(s.accessToken) && q.Succeeded? && q.data.Some? && !q.Failed? ==>
              ReduceAll(s, acts).currentUser == Some(q.data.value) && ReduceAll(s, acts).isInitialized
    ensures Truthy(s.accessToken) && q.Failed? ==>
              ReduceAll(s, acts) == AuthState(None, None, true, false)
    ensures Truthy(s.accessToken) && s.currentUser.Some? ==> ReduceAll(s, acts).isInitialized
    ensures Truthy(s.accessToken) && s.currentUser.None? && !q.Failed? && !(q.Succeeded? && q.data.Some?) ==>
              ReduceAll(s, acts) == s
  {
    if !Truthy(s.accessToken) then [SetInitialized]
    else
      var fetched := if q.Succeeded? && q.data.Some? then [SetCurrentUser(q.data.value)] else [];
      var cleared := if q.Failed? then [ClearAuth] else [];
      var marked := if s.currentUser.Some? then [SetInitialized] else [];
      var acts := fetched + cleared + marked;
      ReduceAllSmall(s, acts);
      acts
  }

  /** Unfolds `ReduceAll` over the at most three actions of one effect run. */
  lemma {:induction false} ReduceAllSmall(s: AuthState, acts: seq<Action>)
    requires |acts| <= 3
    ensures |acts| == 0 ==> ReduceAll(s, acts) == s
    ensures |acts| == 1 ==> ReduceAll(s, acts) == Reduce(s, acts[0])
    ensures |acts| == 2 ==> ReduceAll(s, acts) == Reduce(Reduce(s, acts[0]), acts[1])
    ensures |acts| == 3 ==> ReduceAll(s, acts) == Reduce(Reduce(Reduce(s, acts[0]), acts[1]), acts[2])
  {
    if acts != [] {
      var init := acts[..|acts| - 1];
      ReduceAllSmall(s, init);
      assert forall i :: 0 <= i < |init| ==> init[i] == acts[i];
    }
  }

  /** Unfolds `PersistAll` over the at most three actions of one effect run. */
  lemma {:induction false} PersistAllSmall(local: map<string, string>, acts: seq<Action>)
    requires |acts| <= 3
    ensures |acts| == 0 ==> PersistAll(local, acts) == local
    ensures |acts| == 1 ==> PersistAll(local, acts) == Persist(local, acts[0])
    ensures |acts| == 2 ==> PersistAll(local, acts) == Persist(Persist(local, acts[0]), acts[1])
    ensures |acts| == 3 ==> PersistAll(local, acts) == Persist(Persist(Persist(local, acts[0]), acts[1]), acts[2])
  {
    if acts != [] {
      var init := acts[..|acts| - 1];
      PersistAllSmall(local, init);
      assert forall i :: 0 <= i < |init| ==> init[i] == acts[i];
    }
  }

  /** The loading gate: `!isInitialized || (shouldFetchUser && isLoading)`.
      Since a fetch is only wanted before initialization, the screen shows
      exactly while the session is not initialized. */
  function ShowLoading(s: AuthState, q: MeQuery): (loading: bool)
    ensures loading <==> !s.isInitialized
  {
    !s.isInitialized || (ShouldFetchUser(s) && q.Loading?)
  }

  /** After the first run of the effect on the initial state, the app leaves the
      loading screen exactly when there is no stored token, or the user fetch
      failed, or it succeeded with a user; a pending fetch, or one that succeeds
      without data, keeps the loading screen up. */
  lemma StartupSettles(stored: Option<string>, server: MeQuery)
    ensures var s0 := InitialState(stored);
            var s1 := ReduceAll(s0, InitEffect(s0, Observed(s0, server)));
            !ShowLoading(s1, Observed(s1, server)) <==>
              (!Truthy(stored) || server.Failed? || (server.Succeeded? && server.data.Some?))
  {
  }

  /** The effect run by the provider: the same tests, in the same order, as the
      component's `useEffect`, each dispatching into the store. */
  method RunInitEffect(store: AuthStore, server: MeQuery, browser: Browser)
    modifies store, browser`localStorage
    ensures var s := old(store.State());
            store.State() == ReduceAll(s, InitEffect(s, Observed(s, server)))
    ensures var s := old(store.State());
            browser.localStorage == PersistAll(old(browser.localStorage), InitEffect(s, Observed(s, server)))
  {
    ghost var local := browser.localStorage;
    ghost var s := store.State();
    var token := store.accessToken;
    var user := store.currentUser;
    var q := Observed(store.State(), server);
    if !Truthy(token) {
      store.SetInitialized();
      ReduceAllSmall(s, [SetInitialized]);
      PersistAllSmall(local, [SetInitialized]);
      return;
    }
    if q.Succeeded? && q.data.Some? {
      store.SetCurrentUser(q.data.value);
    }
    if q.Failed? {
      store.ClearAuth(browser);
    }
    if user.Some? {
      store.SetInitialized();
    }
    ghost var acts := InitEffect(s, q);
    ReduceAllSmall(s, acts);
    PersistAllSmall(local, acts);
  }
}

# chatty-frontend session, real-time lists and forms, in Dafny

This project models the client-side logic of the chatty-frontend chat client. The client is a Next.js application. It keeps its session in a Redux store and receives live updates over socket.io. The model covers:

- **The session state machine.** This is the `auth` slice with its five reducers and the `ui` slice. It also covers the start-up decisions of the authentication provider, the 401 handling of the API base query and the lifecycle of the socket connection.
- **The real-time list reconcilers.** These handle messages, rooms, admin users and rooms, the typing lists and the presence record. Each socket handler becomes a function from a list and an event to a list.
- **The input validators, payload builders and form handlers.** These are the settings, profile-edit, create-room, message-input and top-bar forms.

Browser objects the code changes in place are `class`es with `modifies` frames:

- the store;
- the browser's storage and navigation;
- the component states that handlers assign step by step.

Pure updaters and render decisions are functions with lemmas.

Inputs the code does not decide are parameters of the methods. These are:

- the result of every `fetch`, query and mutation;
- socket events and timer firings;
- the environment variable `NEXT_PUBLIC_API_BASE_URL`.

Emits are recorded as output traces, and navigation as a list of `Push` (router) and `Load` (`window.location`) steps.

The modules, by source file:

| source file | module(s) |
|---|---|
| store/slices/authSlice.ts | `AuthSlice` |
| store/slices/uiSlice.ts | `UiSlice` |
| components/providers/AuthProvider.tsx | `AuthProvider` |
| services/api.ts | `ApiClient` |
| lib/socketClient.tsx | `SocketClient` |
| components/chat/MessageList.tsx | `MessageList` |
| components/chat/RoomList.tsx | `RoomList` |
| app/admin/page.tsx | `AdminDashboard` |
| components/chat/MessageInput.tsx | `MessageInput`, `Typing` |
| lib/useSocketRoom.tsx | `SocketRoom`, `Typing` |
| components/chat/TypingIndicator.tsx | `TypingIndicator` |
| components/chat/OnlineUserList.tsx | `OnlineUsers` |
| components/auth/AdminProtectedRoute.tsx | `AdminRoute` |
| app/settings/page.tsx | `SettingsPage` |
| app/profile/edit/page.tsx | `ProfileEdit` |
| components/chat/CreateRoomModal.tsx | `CreateRoom` |
| components/layout/TopBar.tsx | `TopBar` |

`Strings`, `Lists` and `Common` hold the JavaScript semantics the code relies on:

- ECMAScript `trim` with its full whitespace set;
- `startsWith`, `includes`, and `replace` with a string pattern, which changes the first occurrence only;
- `join` and number-to-string;
- truthiness of optional strings and `a || b` on strings;
- order-keeping `filter` and `map`.

## Model

| member | source | states |
|---|---|---|
| AuthSlice.LoadToken | store/slices/authSlice.ts:21-28 | Without a window there is no token. With a window the token is present iff local storage holds "accessToken". |
| AuthSlice.Reduce | store/slices/authSlice.ts:41-76 | Each field changes only under the actions that own it. `isInitialized` never goes from true to false. `setCurrentUser` also sets `isInitialized`. `clearAuth` gives no token, no user, initialized and offline. |
| AuthSlice.Persist | store/slices/authSlice.ts:41-75 | Only `setAuth` (which writes the token) and `clearAuth` (which removes it) touch local storage. No key other than "accessToken" changes. |
| AuthSlice.InitializedLatch | store/slices/authSlice.ts:41-76 | Once initialized, the state stays initialized after any sequence of actions. |
| AuthSlice.StorageMirrorsToken | store/slices/authSlice.ts:21-75 | If the store's token equals the stored token, they stay equal through any sequence of actions. |
| AuthSlice.SetInitializedIdempotent | store/slices/authSlice.ts:56-58 | `setInitialized` twice equals once. |
| AuthSlice.AuthStore.constructor | store/slices/authSlice.ts:30-35 | The store starts as the initial state for the stored token: no user, not initialized, offline. |
| AuthSlice.AuthStore.SetAuth | store/slices/authSlice.ts:42-50 | The in-place reducer equals `Reduce`. Storage equals `Persist`: the same token is written. |
| AuthSlice.AuthStore.SetCurrentUser | store/slices/authSlice.ts:52-55 | The in-place reducer equals `Reduce`: the user is stored and the state is initialized. |
| AuthSlice.AuthStore.SetInitialized | store/slices/authSlice.ts:56-58 | The in-place reducer equals `Reduce`. |
| AuthSlice.AuthStore.SetOnlineStatus | store/slices/authSlice.ts:59-61 | The in-place reducer equals `Reduce`: only `isOnline` changes. |
| AuthSlice.AuthStore.ClearAuth | store/slices/authSlice.ts:62-75 | The in-place reducer equals `Reduce`. The stored token is removed. |
| AuthSlice.AuthStore.Dispatch | store/slices/authSlice.ts:38-76 | Dispatching any action gives `Reduce` on the state and `Persist` on storage. |
| UiSlice.UiStore.constructor | store/slices/uiSlice.ts:7-9 | `activeRoomId` starts as null. |
| UiSlice.UiStore.SetActiveRoomId | store/slices/uiSlice.ts:15-17 | The new value is exactly the payload, null included, whatever the old value was. So a repeat changes nothing and the last write wins. |
| AuthProvider.Observed | components/providers/AuthProvider.tsx:26-37 | The user query is seen only when there is a token, no user and no initialization. Otherwise it is skipped. |
| AuthProvider.InitEffect | components/providers/AuthProvider.tsx:40-62 | With no token: only `setInitialized`. A fetched user is stored and initialized. A failed fetch clears the session. A present user initializes. A pending fetch changes nothing. |
| AuthProvider.ReduceAllSmall | components/providers/AuthProvider.tsx:40-62 | Dispatching up to three actions in order is applying the reducer to each in turn. |
| AuthProvider.ShowLoading | components/providers/AuthProvider.tsx:65-76 | The loading screen shows exactly while the session is not initialized. The fetch clause never adds a case. |
| AuthProvider.StartupSettles | components/providers/AuthProvider.tsx:26-76 | After the first effect run, loading ends iff there is no stored token, the fetch failed, or it returned a user. |
| AuthProvider.RunInitEffect | components/providers/AuthProvider.tsx:40-62 | The effect's dispatches leave the store in the state `InitEffect` prescribes, and local storage as `PersistAll` of the same actions leaves it. So a failed fetch removes the stored token. |
| ApiClient.BaseUrl | services/api.ts:12 | The base URL is the environment value when it is truthy, else "http://localhost:5001/api". It is never empty. |
| ApiClient.Authorization | services/api.ts:14-23 | There is an authorization header iff the token is truthy. It starts with "Bearer " and the token reads back from it. |
| ApiClient.StoredBearer | app/settings/page.tsx:39 | Hand-written fetches send "Bearer " and the stored token, or "Bearer null" when none is stored. |
| ApiClient.StoredBearerAgrees | services/api.ts:16-20 | The two header rules agree on a non-empty stored token. They differ only when no token is stored. |
| ApiClient.Headers.Prepare | services/api.ts:14-23 | Only the "authorization" header is set, and only when there is a token. Every other header is kept. |
| ApiClient.RedirectRemembersPath | services/api.ts:39-46 | Every redirect to login is preceded by saving the return path. |
| ApiClient.AuthSubpageRememberedNotRedirected | services/api.ts:39-46 | The converse fails: "/auth/reset" is saved but not redirected. |
| ApiClient.BaseQueryWithReauth | services/api.ts:26-51 | The result is returned unchanged. A 401 clears the session and storage. In a browser, the path is saved iff it is not login or register, and the user is sent to login iff the path is outside "/auth". Any other result has no effect. |
| SocketClient.SocketUrlAsWritten | lib/socketClient.tsx:56-58 | The socket URL as the code computes it: the first "/api" is removed, with a fallback to "http://localhost:5001". It is never empty. A base URL without "/api" is kept. |
| SocketClient.SocketUrlAsWrittenBreaksApiHost | lib/socketClient.tsx:56-58 | "https://api.example.com/api" gives "https:/.example.com/api". |
| SocketClient.SocketUrl | lib/socketClient.tsx:56-58 | Corrected: only a trailing "/api" is removed, with the same fallback. |
| SocketClient.SocketUrlDropsApiPath | lib/socketClient.tsx:56-58 | Corrected: "<origin>/api" gives the origin for every origin. |
| SocketClient.SocketUrlAgreesWithoutInnerApi | lib/socketClient.tsx:56-58 | On a base "<origin>/api" whose origin holds no "/api", the code and the correction agree. |
| SocketClient.SocketProvider.constructor | lib/socketClient.tsx:34-35 | No socket, not connected, nothing live. |
| SocketClient.SocketProvider.AtMostOneConnection | lib/socketClient.tsx:42-116 | At most one socket is live. When connected, it is the `socket` state. |
| SocketClient.SocketProvider.RunEffect | lib/socketClient.tsx:42-116 | The cleanup disconnects the previous socket and goes offline. An unauthenticated run disconnects an existing socket and stops. An authenticated run opens exactly one new socket, with the corrected URL (see Left out), the token, websocket and polling transports, and 5 attempts at 1000 ms. |
| SocketClient.SocketProvider.OnRender | lib/socketClient.tsx:42-116 | The effect runs only when `[isAuthenticated, accessToken]` changed. Otherwise nothing changes. When they changed, the old socket is closed and the state is offline. A signed-out render leaves no socket and nothing live. A signed-in render opens exactly one new socket with the current token and the connection options. |
| SocketClient.SocketProvider.OnEvent | lib/socketClient.tsx:71-105 | `connect` sets connected and online. `disconnect`, `connect_error` and `unauthorized` clear both. `unauthorized` closes the socket. `error` changes nothing. `avatar-updated` for the captured user replaces only its avatar. A closed socket hears nothing. |
| MessageList.Append | components/chat/MessageList.tsx:78-83 | One element is added at the end. The old list is an unchanged prefix. |
| MessageList.PrependOlder | components/chat/MessageList.tsx:52-57 | The older page comes first. The previous list is an unchanged suffix. |
| MessageList.ReplaceById | components/chat/MessageList.tsx:85-89 | Same length. Messages with the id become the update. All others are unchanged. |
| MessageList.DeleteById | components/chat/MessageList.tsx:91-93 | No message with the id remains. Every other message remains, in order, with all its copies. |
| MessageList.ReplaceKeepsIds | components/chat/MessageList.tsx:85-89 | An update keeps the sequence of ids. |
| MessageList.ReplaceAbsentIsNoop | components/chat/MessageList.tsx:85-89 | An update for an absent id changes nothing. |
| MessageList.DeleteAbsentIsNoop | components/chat/MessageList.tsx:91-93 | A deletion of an absent id changes nothing. |
| MessageList.DeleteCommutesWithAppend | components/chat/MessageList.tsx:78-93 | Deleting one id and appending a message with another id commute. |
| MessageList.ApplyMessageEvent | components/chat/MessageList.tsx:75-101 | New messages and join/leave notices are appended. An update keeps the ids. A deletion removes the id and keeps a subsequence. |
| MessageList.RenderRow | components/chat/MessageList.tsx:257-302 | A message is drawn as a notice iff its type is "SYSTEM" and its action is a join or a leave. The join icon shows iff the action is "USER_JOINED". Any other message is a bubble, marked as the user's own iff its sender is the signed-in user. |
| MessageList.ScreenFor | components/chat/MessageList.tsx:129-170 | Loading first. Then an error, showing the server's message when it is non-empty and "Please try again" otherwise. Then the empty state iff there are no messages. |
| MessageList.MessageListView.constructor | components/chat/MessageList.tsx:14-22 | An empty list, no cursor, nothing loading or listening. |
| MessageList.MessageListView.Seed | components/chat/MessageList.tsx:26-32 | A page replaces the messages and the cursor, and sets `hasMore` (false when absent). No page changes nothing. |
| MessageList.MessageListView.BeginLoadMore | components/chat/MessageList.tsx:35-50 | No request without a cursor or while a load runs. Otherwise it marks a load and requests 15 messages before the cursor. |
| MessageList.MessageListView.FinishLoadMore | components/chat/MessageList.tsx:52-71 | An ok page is prepended to the current list and replaces the cursor and `hasMore`. A failure keeps them. The load is over either way. |
| MessageList.MessageListView.SyncListeners | components/chat/MessageList.tsx:75-118 | On a change of socket or flag: leave the room if registered, then join if socket, flag and room allow. |
| MessageList.MessageListView.OnSocketEvent | components/chat/MessageList.tsx:75-101 | Events are applied only while registered. |
| RoomList.Overlay | components/chat/RoomList.tsx:73-78 | Every field the payload carries wins. The others are kept. `_count` is one field, replaced as a whole. |
| RoomList.UpdateRooms | components/chat/RoomList.tsx:70-80 | Same length. Rooms with the id get the overlay. Others are unchanged. |
| RoomList.DeleteRoom | components/chat/RoomList.tsx:82-87 | The id is gone. The other rooms remain in order, with all their copies. |
| RoomList.UpdateKeepsIds | components/chat/RoomList.tsx:70-80 | An update keeps the ids. |
| RoomList.AbsentIdIsNoop | components/chat/RoomList.tsx:70-87 | An update or deletion for an absent id changes nothing. |
| RoomList.ApplyRoomEvent | components/chat/RoomList.tsx:58-112 | `room:created` leaves the lists alone. An update keeps the ids. A deletion removes the id. |
| RoomList.EventsKeepIdsDistinct | components/chat/RoomList.tsx:58-112 | Distinct ids stay distinct through any sequence of events. |
| RoomList.RoomPageLeavesDeletedRoom | components/chat/RoomList.tsx:97-103 | Viewing "/chat/rooms/<id>" always triggers the redirect on that room's deletion. |
| RoomList.DisplayedRooms | components/chat/RoomList.tsx:150-152 | The joined tab shows the joined list. The public tab shows the public list. |
| RoomList.FilteredRooms | components/chat/RoomList.tsx:155-159 | Exactly the matching rooms, in order, as a subsequence, each as many times as in the tab's list. |
| RoomList.EmptyQueryKeepsAll | components/chat/RoomList.tsx:155-159 | An empty search keeps every room. |
| RoomList.JoinTarget | components/chat/RoomList.tsx:338-340 | A row has a Join button iff the user is not a member. The button joins that row's room. |
| RoomList.MembershipUpdateHidesJoin | components/chat/RoomList.tsx:70-80 | A "room:updated" payload with `isMember` true removes the Join button of that room. Every other row keeps its button. |
| RoomList.RoomListView.constructor | components/chat/RoomList.tsx:41-42 | Both local lists empty, not listening. |
| RoomList.RoomListView.SeedJoined | components/chat/RoomList.tsx:45-49 | Replaced only by a response carrying rooms. |
| RoomList.RoomListView.SeedPublic | components/chat/RoomList.tsx:51-55 | Replaced only by a response carrying rooms. |
| RoomList.RoomListView.SetConnection | components/chat/RoomList.tsx:58-61 | Listening iff a socket is present and connected. |
| RoomList.RoomListView.OnRoomEvent | components/chat/RoomList.tsx:58-112 | Both lists are updated alike. A deletion of the room in the current path sends the user to "/chat/rooms" with the notice. |
| AdminDashboard.OverlayRoom | app/admin/page.tsx:104-111 | The sent fields win. The others are kept. |
| AdminDashboard.SetUserOnline | app/admin/page.tsx:58-87 | Only users with the id change, and only `isOnline`. Same length. An absent table stays absent. |
| AdminDashboard.SetUserOnlineIdempotent | app/admin/page.tsx:58-87 | Repeating a status event changes nothing. |
| AdminDashboard.DeleteAdminRoom | app/admin/page.tsx:96-102 | The id is removed. The others are kept in order, with all their copies. |
| AdminDashboard.PatchAdminRoom | app/admin/page.tsx:104-111 | The overlay applies to matching rooms only. |
| AdminDashboard.SetRoomMembers | app/admin/page.tsx:114-123 | Only the two member counts of matching rooms change. |
| AdminDashboard.SetRoomMessages | app/admin/page.tsx:126-133 | Only the message count of matching rooms changes. |
| AdminDashboard.ApplyUserEvent | app/admin/page.tsx:58-133 | The user table keeps its presence and length. |
| AdminDashboard.ApplyAdminRoomEvent | app/admin/page.tsx:90-133 | The room table keeps its presence. Only a deletion changes its length. |
| AdminDashboard.ActiveUsers | app/admin/page.tsx:183 | Exactly the online users: every listed user is online, every online user of the table is listed, in table order. None without a table. |
| AdminDashboard.InactiveUsers | app/admin/page.tsx:184 | Exactly the offline users: every listed user is offline, every offline user of the table is listed, in table order. None without a table. |
| AdminDashboard.ActivePlusInactiveIsTotal | app/admin/page.tsx:183-185 | Online plus offline equals the total. |
| AdminDashboard.FilteredUsers | app/admin/page.tsx:187-191 | "online" gives exactly the active users, "offline" the inactive ones, "all" every user. |
| AdminDashboard.FilterMatchesCounts | app/admin/page.tsx:183-191 | The filter callbacks agree with the derived lists. |
| AdminDashboard.Dashboard.constructor | app/admin/page.tsx:27-33 | The tables start as the first query answers. There is no edit, and the filter is "all". |
| AdminDashboard.Dashboard.SeedUsers | app/admin/page.tsx:36-38 | A new answer replaces the users. No answer keeps them. |
| AdminDashboard.Dashboard.SeedRooms | app/admin/page.tsx:40-42 | A new answer replaces the rooms. No answer keeps them. |
| AdminDashboard.Dashboard.SetConnection | app/admin/page.tsx:45-46 | Listening iff the socket is connected. |
| AdminDashboard.Dashboard.OnAdminEvent | app/admin/page.tsx:45-147 | Events update both tables only while listening. |
| AdminDashboard.Dashboard.SetUserFilter | app/admin/page.tsx:29 | The filter is set. |
| AdminDashboard.Dashboard.StartEdit | app/admin/page.tsx:469-470 | Editing starts from the room's current name. |
| AdminDashboard.Dashboard.EditName | app/admin/page.tsx:413 | The typed name is kept. |
| AdminDashboard.Dashboard.CancelEdit | app/admin/page.tsx:426-427 | There is no edit and the name is cleared. |
| AdminDashboard.Dashboard.HandleUpdateRoom | app/admin/page.tsx:162-176 | A name that trims to empty is refused with no request. Otherwise the untrimmed name is sent. Success ends the edit. Failure shows the server message or the fallback. |
| AdminDashboard.HandleDeleteRoom | app/admin/page.tsx:149-160 | A delete request for the room iff confirmed. Then "Room deleted successfully", or the server's message with the fallback "Failed to delete room". |
| Typing.AddTypist | components/chat/MessageInput.tsx:27-34 | The name is added iff it is absent. Duplicate-freedom is kept. |
| Typing.RemoveTypist | components/chat/MessageInput.tsx:36-38 | The name is gone. The others remain in order, with all their copies. |
| Typing.RemoveAbsentIsNoop | lib/useSocketRoom.tsx:29-31 | Removing an absent name changes nothing. |
| Typing.RemoveKeepsNoDuplicates | lib/useSocketRoom.tsx:29-31 | Removal keeps duplicate-freedom. |
| Typing.ApplyTypingEvent | lib/useSocketRoom.tsx:15-31 | After a typing event the name is present. After a stop or an expiry it is absent. |
| Typing.EventsKeepNoDuplicates | lib/useSocketRoom.tsx:15-31 | The list is duplicate-free after any sequence of typing, stop and expiry events. |
| SocketRoom.RoomTypingTracker.constructor | lib/useSocketRoom.tsx:10 | An empty list, no pending expiries. |
| SocketRoom.RoomTypingTracker.SetConnection | lib/useSocketRoom.tsx:12-13 | Listeners only with a connected socket and a non-empty room id. |
| SocketRoom.RoomTypingTracker.OnUserTyping | lib/useSocketRoom.tsx:15-27 | The name is added iff absent. Each event schedules its own 3000 ms expiry. |
| SocketRoom.RoomTypingTracker.OnUserStoppedTyping | lib/useSocketRoom.tsx:29-31 | The name is removed, while listening. |
| SocketRoom.RoomTypingTracker.OnExpiry | lib/useSocketRoom.tsx:24-26 | A fired expiry removes its name and only that timer. |
| MessageInput.SentContent | components/chat/MessageInput.tsx:157 | The trimmed message, or "Sent <file name>" when that is empty and a file is attached. |
| MessageInput.SubmittedContentNotEmpty | components/chat/MessageInput.tsx:135-157 | Whatever passes the guard is sent with non-empty content. |
| MessageInput.TypingLabel | components/chat/MessageInput.tsx:186-188 | Nothing for no typist. "<name> is typing..." for one. "<n> people are typing..." otherwise. |
| MessageInput.TypingLabelCounts | components/chat/MessageInput.tsx:186-188 | The number in the label reads back as the count of typists. |
| MessageInput.MessageComposer.constructor | components/chat/MessageInput.tsx:14-22 | An empty message. Not typing, no file, no timer. |
| MessageInput.MessageComposer.SetConnection | components/chat/MessageInput.tsx:24-25 | The typing listeners are active only on a connected socket. |
| MessageInput.MessageComposer.OnTypingEvent | components/chat/MessageInput.tsx:27-38 | Typing events update the list only while listening. |
| MessageInput.MessageComposer.OnMessageChange | components/chat/MessageInput.tsx:46-62 | `typing:start` is emitted once per burst. Each keystroke replaces the pending timer. Nothing happens without a connection. |
| MessageInput.MessageComposer.OnTypingTimer | components/chat/MessageInput.tsx:58-61 | Only the latest timer emits `typing:stop` and clears typing. |
| MessageInput.MessageComposer.SelectFile | components/chat/MessageInput.tsx:64-74 | A file over 10 MiB is refused with a notice. Otherwise it is selected. |
| MessageInput.MessageComposer.Submit | components/chat/MessageInput.tsx:132-167 | The guard on blank content and busy state. Typing stops first. Past the guard, the message is sent exactly when there is no file or the upload returned an attachment. The request then carries the room, `SentContent` and that attachment. A failed upload sends nothing and reports. An upload without an attachment sends nothing silently. Success clears the input. Failure keeps it, with a notice. |
| TypingIndicator.IndicatorText | components/chat/TypingIndicator.tsx:13-21 | Nothing iff nobody types. Otherwise the names joined by ", ", then "is" for one name and "are" for more. |
| TypingIndicator.IndicatorListsInOrder | components/chat/TypingIndicator.tsx:17 | A new typist's name follows the names already shown, after ", ". |
| OnlineUsers.Lookup | components/chat/OnlineUserList.tsx:14 | A key is absent iff no entry carries it. A found flag is an entry's. |
| OnlineUsers.PresenceUpdate | components/chat/OnlineUserList.tsx:20-23 | An existing key keeps its place. A new key goes last. |
| OnlineUsers.PresenceUpdateStores | components/chat/OnlineUserList.tsx:20-23 | After an update, the key holds the new flag. |
| OnlineUsers.PresenceUpdateKeepsOthers | components/chat/OnlineUserList.tsx:20-23 | Every other key's flag is unchanged. |
| OnlineUsers.LookupMapWhere | components/chat/OnlineUserList.tsx:20-23 | Rewriting a user's entries changes only that key's flag. |
| OnlineUsers.LookupAppend | components/chat/OnlineUserList.tsx:20-23 | An entry appended for a new key is found for that key only. |
| OnlineUsers.PresenceLastWins | components/chat/OnlineUserList.tsx:20-23 | The last update for a user wins. A repeated update is idempotent. |
| OnlineUsers.PresenceKeepsKeysDistinct | components/chat/OnlineUserList.tsx:33-46 | Exactly one entry per user id. |
| OnlineUsers.Render | components/chat/OnlineUserList.tsx:33-47 | "No active users" iff the record is empty. Otherwise one row per entry, offline users included. |
| OnlineUsers.OnlineUserList.constructor | components/chat/OnlineUserList.tsx:14 | An empty record. |
| OnlineUsers.OnlineUserList.SetConnection | components/chat/OnlineUserList.tsx:16-17 | Listening iff the socket is connected. |
| OnlineUsers.OnlineUserList.OnPresenceUpdate | components/chat/OnlineUserList.tsx:19-26 | While listening, the record is updated and keeps one entry per key. |
| AdminRoute.View | components/auth/AdminProtectedRoute.tsx:23-38 | Loading iff not initialized. Children iff initialized and the user is an ADMIN. Otherwise nothing. |
| AdminRoute.Redirect | components/auth/AdminProtectedRoute.tsx:17-21 | A redirect to "/chat/rooms" iff initialized and the user is missing or not an ADMIN. |
| AdminRoute.ContentOnlyForAdmins | components/auth/AdminProtectedRoute.tsx:17-38 | Children and a redirect never happen together. Past loading, exactly one of them happens. |
| AdminRoute.ClearAuthLocksOut | components/auth/AdminProtectedRoute.tsx:17-38 | After `clearAuth` an initialized session is redirected and shows nothing. |
| SettingsPage.ValidatePassword | app/settings/page.tsx:20-28 | A mismatch is reported before the length. A password passes iff the confirmation matches and it has at least 6 characters. |
| SettingsPage.LengthBoundary | app/settings/page.tsx:20-28 | 6 characters pass, 5 do not. A mismatch is reported even for a long enough password. |
| SettingsPage.PasswordForm.constructor | app/settings/page.tsx:8-13 | Empty fields, no message. |
| SettingsPage.PasswordForm.Edit | app/settings/page.tsx:8-10 | The three fields hold the typed values. |
| SettingsPage.PasswordForm.ChangePassword | app/settings/page.tsx:15-62 | Messages are reset first. A refused form sends nothing. The request carries exactly the current and the new password. Success clears all three fields. Failure shows the server message or "Failed to change password". Not submitting afterwards. |
| ProfileEdit.PageUser | app/profile/edit/page.tsx:12-13 | The fetched user, else the store's. |
| ProfileEdit.InitialFields | app/profile/edit/page.tsx:15-16 | The user's display name and status message, with "" for anything missing. |
| ProfileEdit.BuildUpdate | app/profile/edit/page.tsx:29-36 | The trimmed display name always. The status message iff it is not blank, and then trimmed and non-empty. |
| ProfileEdit.BuildUpdateStable | app/profile/edit/page.tsx:29-36 | Re-submitting the sent values sends the same body. |
| ProfileEdit.ProfileForm.constructor | app/profile/edit/page.tsx:15-19 | The fields start from `InitialFields`. |
| ProfileEdit.ProfileForm.Edit | app/profile/edit/page.tsx:15-16 | The fields hold the typed values. |
| ProfileEdit.ProfileForm.Submit | app/profile/edit/page.tsx:21-64 | Once the handler runs, the PATCH goes out with `BuildUpdate` (the form's constraint check before it is left out). Success sets the flag and schedules the move. Failure shows the server message or "Failed to update profile". Not submitting afterwards. |
| ProfileEdit.ProfileForm.Settle | app/profile/edit/page.tsx:50-63 | Success sets the flag and schedules the move. Failure shows the server message or "Failed to update profile". Not submitting afterwards. |
| ProfileEdit.ProfileForm.OnRedirectTimer | app/profile/edit/page.tsx:56-58 | A pending move loads "/profile". |
| ProfileEdit.Render | app/profile/edit/page.tsx:66-69 | Without a user: a push to "/auth/login" and nothing shown. |
| CreateRoom.BuildPayload | components/chat/CreateRoomModal.tsx:29-33 | The trimmed name. The trimmed description, or none when blank. The privacy flag as set. |
| CreateRoom.NameMissingIff | components/chat/CreateRoomModal.tsx:23 | The name check fails exactly on whitespace-only names. |
| CreateRoom.PayloadNameNotBlank | components/chat/CreateRoomModal.tsx:23-33 | A sent name is non-empty and has no surrounding whitespace. |
| CreateRoom.CreateRoomForm.constructor | components/chat/CreateRoomModal.tsx:12-15 | Empty fields, not private, no error. |
| CreateRoom.CreateRoomForm.Edit | components/chat/CreateRoomModal.tsx:12-14 | The fields hold the typed values. |
| CreateRoom.CreateRoomForm.Submit | components/chat/CreateRoomModal.tsx:19-43 | A blank name gives "Room name is required" and no request. Otherwise the payload is sent. |
| CreateRoom.CreateRoomForm.Settle | components/chat/CreateRoomModal.tsx:35-42 | Success resets the fields and closes. Failure shows the server message or "Failed to create room". |
| CreateRoom.Render | components/chat/CreateRoomModal.tsx:45 | A closed modal renders nothing. |
| TopBar.ValidateAvatar | components/layout/TopBar.tsx:73-83 | The type is checked before the size. A file passes iff it is an image of at most 5 MiB. |
| TopBar.AvatarSizeBoundary | components/layout/TopBar.tsx:73-83 | Exactly 5 MiB passes, one byte more does not. A non-image is refused for its type. |
| TopBar.AvatarSource | components/layout/TopBar.tsx:131-133 | The user's avatar when it is truthy. Otherwise the generated URL, which carries the encoded display name. |
| TopBar.View | components/layout/TopBar.tsx:129-133 | Nothing without a user. Otherwise the avatar, name and presence. |
| TopBar.TopBarView.constructor | components/layout/TopBar.tsx:19 | Not uploading. |
| TopBar.TopBarView.HandleFileChange | components/layout/TopBar.tsx:69-127 | A refused file is only alerted. An accepted one is uploaded, after which uploading is over and the input is cleared. A response user patches only the current user's avatar. |
| TopBar.HandleLogout | components/layout/TopBar.tsx:38-47 | A failed logout removes the stored token. The user always lands on "/auth/login". |
| Strings.Trim | components/chat/CreateRoomModal.tsx:23 | `trim` leaves no whitespace at either end and never grows the string. |
| Strings.TrimStartShape | components/chat/CreateRoomModal.tsx:23 | `trimStart` removes only a whitespace prefix and keeps the rest of the string. |
| Strings.TrimEndShape | components/chat/CreateRoomModal.tsx:23 | `trimEnd` removes only a whitespace suffix and keeps the rest of the string. |
| Strings.TrimShape | components/chat/CreateRoomModal.tsx:23 | `trim` keeps a contiguous middle part of the string, with only whitespace before and after it. |
| Strings.TrimEmptyIff | components/chat/CreateRoomModal.tsx:23 | A string trims to "" iff it is whitespace only. |
| Strings.TrimIdempotent | app/profile/edit/page.tsx:30 | Trimming twice is trimming once. |
| Strings.ReplaceFirst | lib/socketClient.tsx:57 | `replace` with a string pattern changes only the first occurrence. |
| Strings.Lower | components/chat/RoomList.tsx:156-158 | ASCII lower-casing, character by character. |
| Strings.JoinSnoc | components/chat/TypingIndicator.tsx:17 | `join` reads names left to right. |
| Strings.NatToStringRoundTrip | components/chat/MessageInput.tsx:188 | The decimal text of a count reads back as the count. |

## Left out

- RTK Query endpoint tables, caching, tag invalidation and refetching are library configuration. Queries and mutations appear only through their outcomes, which are parameters.
- Logout's `onQueryStarted` in services/authApi.ts, which clears the session after the mutation, is not part of this model. `TopBar.HandleLogout` models only the component's own steps.
- socket.io transport and `socket.on`/`off` registration are modelled as a `listening` flag per component. Events are inputs and emits are an output trace.
- Real timers are modelled as explicit fired events: the 100 ms scroll, the 1500 ms profile redirect, and the 2000 ms and 3000 ms typing timers. DOM scrolling, `FileReader` previews, `alert` and `confirm` dialogs and `console` output are left out. Alerts appear as returned notices where a property mentions them.
- Strings.Lower: `toLowerCase` is modelled for ASCII only. `encodeURIComponent` is a parameter. `toLocaleTimeString` is not modelled.
- SettingsPage.ValidatePassword: string lengths count code points. JavaScript's `.length` counts UTF-16 units, so characters outside the Basic Multilingual Plane count once here and twice in the browser. This affects the 6-character password check.
- Browser storage errors and window-less storage writes are not modelled.
- OnlineUsers.PresenceUpdate: `Object.entries` lists integer-like keys first, in ascending order. The model keeps insertion order for every key, which matches the client for non-numeric user ids.
- components/common/ProtectedRoute.tsx reads a session field that does not exist. It is not part of this model.
- Room join, leave and delete mutations in RoomList, `admin:stats-updated` and `admin:room-created` only refetch or alert. They are not modelled.
- `MessageList.MessageListView.BeginLoadMore`: the older-page URL is built without the API fallback, and the model does not keep the URL.
- `TopBar.TopBarView.HandleFileChange`: the code patches the `currentUser` captured at render. The model reads the store's user when the handler runs.
- The async interleaving of submits and loads is not modelled. The outcome of each request is a parameter, and the handler runs to completion in one step.
- SocketClient.SocketProvider.RunEffect: opens the socket with the corrected URL `SocketUrl`, not the as-written `SocketUrlAsWritten`. The two agree when the base has no "/api", and when it ends in "/api" with no earlier "/api" (see `SocketUrlAgreesWithoutInnerApi`). They can differ otherwise: "http://h/api/v1" gives "http://h/v1" as written but is kept by `SocketUrl`, and an "/api" inside the host is cut as in the finding below.
- SettingsPage.PasswordForm.ChangePassword, ProfileEdit.ProfileForm.Submit, CreateRoom.CreateRoomForm.Submit: the handlers are modelled as called. The browser's form constraint check that runs before them is not modelled: `required` on the current password (app/settings/page.tsx:82), `required`, `minLength={2}` and `maxLength={50}` on the display name (app/profile/edit/page.tsx:87-89), and `maxLength={100}` and `required` on the room name (components/chat/CreateRoomModal.tsx:76-77). So the model still sends a request for inputs the browser would stop, such as an empty current password or a one-character display name.
- `MessageInput.MessageComposer.Submit`: the typing timer is not cleared on submit, as in the code. A later timer firing emits a second `typing:stop`.

## Findings

| source | as written | input that shows it | evidently intended | confidence | as-written member | corrected member |
|---|---|---|---|---|---|---|
| lib/socketClient.tsx:56-58 | The socket URL is `NEXT_PUBLIC_API_BASE_URL.replace("/api", "")`, which removes the first "/api" anywhere in the URL | "https://api.example.com/api" gives "https:/.example.com/api" | Drop only the trailing "/api" path, giving "https://api.example.com" | not executed | SocketClient.SocketUrlAsWrittenBreaksApiHost | SocketClient.SocketUrlDropsApiPath |

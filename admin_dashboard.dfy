/** The admin dashboard: the user and room tables kept current by admin socket
    events, the online/offline counts and filter, and the rename and delete
    actions on rooms. */
module AdminDashboard {
  import opened Common
  import opened Strings
  import opened Lists

  datatype AdminUser = AdminUser(id: string, username: string, displayName: Option<string>, isOnline: bool)

  datatype AdminRoom = AdminRoom(
    id: string,
    name: string,
    isPrivate: bool,
    totalMembers: nat,
    onlineMembers: nat,
    messagesCount: nat)

  /** The payload of "admin:room-updated": the id and the fields sent. */
  datatype AdminRoomPatch = AdminRoomPatch(
    id: string,
    name: Option<string>,
    isPrivate: Option<bool>,
    totalMembers: Option<nat>,
    onlineMembers: Option<nat>,
    messagesCount: Option<nat>)

  /** `{ ...room, ...updatedRoom }`. */
  function OverlayRoom(r: AdminRoom, p: AdminRoomPatch): (o: AdminRoom)
    ensures o.id == p.id && o.name == p.name.GetOr(r.name) && o.isPrivate == p.isPrivate.GetOr(r.isPrivate)
    ensures o.totalMembers == p.totalMembers.GetOr(r.totalMembers)
    ensures o.onlineMembers == p.onlineMembers.GetOr(r.onlineMembers)
    ensures o.messagesCount == p.messagesCount.GetOr(r.messagesCount)
  {
    AdminRoom(p.id, p.name.GetOr(r.name), p.isPrivate.GetOr(r.isPrivate), p.totalMembers.GetOr(r.totalMembers),
              p.onlineMembers.GetOr(r.onlineMembers), p.messagesCount.GetOr(r.messagesCount))
  }

  /** `prevUsers?.map(user => user.id === userId ? { ...user, isOnline } : user)`:
      a missing table stays missing; otherwise only the matching users change,
      and only in `isOnline`. */
  function SetUserOnline(users: Option<seq<AdminUser>>, userId: string, online: bool): (r: Option<seq<AdminUser>>)
    ensures r.Some? <==> users.Some?
    ensures users.Some? ==> |r.value| == |users.value|
    ensures users.Some? ==> forall i :: 0 <= i < |users.value| ==>
              r.value[i] == if users.value[i].id == userId then users.value[i].(isOnline := online) else users.value[i]
  {
    if users.None? then None
    else Some(MapWhere(users.value, (u: AdminUser) => u.id == userId, (u: AdminUser) => u.(isOnline := online)))
  }

  /** Setting a status twice is setting it once. */
  lemma SetUserOnlineIdempotent(users: Option<seq<AdminUser>>, userId: string, online: bool)
    ensures SetUserOnline(SetUserOnline(users, userId, online), userId, online) == SetUserOnline(users, userId, online)
  {
    if users.Some? {
      var once := SetUserOnline(users, userId, online).value;
      var twice := SetUserOnline(Some(once), userId, online).value;
      assert |twice| == |once|;
      forall i | 0 <= i < |once| ensures twice[i] == once[i] {
        assert once[i].id == users.value[i].id;
      }
      assert twice == once;
      assert SetUserOnline(users, userId, online) == Some(once);
    }
  }

  /** "admin:room-deleted": the rooms with that id go, the rest keep their order. */
  function DeleteAdminRoom(rooms: Option<seq<AdminRoom>>, roomId: string): (r: Option<seq<AdminRoom>>)
    ensures r.Some? <==> rooms.Some?
    ensures rooms.Some? ==> IsSubseq(r.value, rooms.value)
    ensures rooms.Some? ==> forall i :: 0 <= i < |r.value| ==> r.value[i].id != roomId
    ensures rooms.Some? ==> forall i :: 0 <= i < |rooms.value| && rooms.value[i].id != roomId ==> rooms.value[i] in r.value
    ensures rooms.Some? ==> forall x :: multiset(r.value)[x] == if x.id != roomId then multiset(rooms.value)[x] else 0
  {
    if rooms.None? then None
    else
      FilterMultiset(rooms.value, (x: AdminRoom) => x.id != roomId);
      Some(Filter(rooms.value, (x: AdminRoom) => x.id != roomId))
  }

  /** "admin:room-updated": the overlay on the matching rooms. */
  function PatchAdminRoom(rooms: Option<seq<AdminRoom>>, p: AdminRoomPatch): (r: Option<seq<AdminRoom>>)
    ensures r.Some? <==> rooms.Some?
    ensures rooms.Some? ==> |r.value| == |rooms.value|
    ensures rooms.Some? ==> forall i :: 0 <= i < |rooms.value| ==>
              r.value[i] == if rooms.value[i].id == p.id then OverlayRoom(rooms.value[i], p) else rooms.value[i]
  {
    if rooms.None? then None
    else Some(MapWhere(rooms.value, (x: AdminRoom) => x.id == p.id, (x: AdminRoom) => OverlayRoom(x, p)))
  }

  /** "admin:room-online-updated": only the two member counts of the matching rooms. */
  function SetRoomMembers(rooms: Option<seq<AdminRoom>>, roomId: string, online: nat, total: nat): (r: Option<seq<AdminRoom>>)
    ensures r.Some? <==> rooms.Some?
    ensures rooms.Some? ==> |r.value| == |rooms.value|
    ensures rooms.Some? ==> forall i :: 0 <= i < |rooms.value| ==>
              r.value[i] == if rooms.value[i].id == roomId
                            then rooms.value[i].(onlineMembers := online, totalMembers := total)
                            else rooms.value[i]
  {
    if rooms.None? then None
    else Some(MapWhere(rooms.value, (x: AdminRoom) => x.id == roomId,
                       (x: AdminRoom) => x.(onlineMembers := online, totalMembers := total)))
  }

  /** "admin:room-messages-updated": only the message count of the matching rooms. */
  function SetRoomMessages(rooms: Option<seq<AdminRoom>>, roomId: string, count: nat): (r: Option<seq<AdminRoom>>)
    ensures r.Some? <==> rooms.Some?
    ensures rooms.Some? ==> |r.value| == |rooms.value|
    ensures rooms.Some? ==> forall i :: 0 <= i < |rooms.value| ==>
              r.value[i] == if rooms.value[i].id == roomId then rooms.value[i].(messagesCount := count) else rooms.value[i]
  {
    if rooms.None? then None
    else Some(MapWhere(rooms.value, (x: AdminRoom) => x.id == roomId, (x: AdminRoom) => x.(messagesCount := count)))
  }

  /** The admin events the dashboard listens to. */
  datatype AdminEvent =
    | StatsUpdated
    | UserOnline(userId: string)
    | UserOffline(userId: string)
    | UserStatusChanged(statusUserId: string, isOnline: bool)
    | AdminRoomCreated
    | AdminRoomDeleted(roomId: string)
    | AdminRoomUpdated(patch: AdminRoomPatch)
    | RoomOnlineUpdated(onlineRoomId: string, onlineMembers: nat, totalMembers: nat)
    | RoomMessagesUpdated(messagesRoomId: string, messagesCount: nat)

  /** What an event does to the user table; the room events and the stats
      event only refetch. */
  function ApplyUserEvent(users: Option<seq<AdminUser>>, e: AdminEvent): (r: Option<seq<AdminUser>>)
    ensures r.Some? <==> users.Some?
    ensures users.Some? ==> |r.value| == |users.value|
  {
    match e
    case UserOnline(id) => SetUserOnline(users, id, true)
    case UserOffline(id) => SetUserOnline(users, id, false)
    case UserStatusChanged(id, online) => SetUserOnline(users, id, online)
    case _ => users
  }

  /** What an event does to the room table. */
  function ApplyAdminRoomEvent(rooms: Option<seq<AdminRoom>>, e: AdminEvent): (r: Option<seq<AdminRoom>>)
    ensures r.Some? <==> rooms.Some?
    ensures !e.AdminRoomDeleted? && rooms.Some? ==> |r.value| == |rooms.value|
  {
    match e
    case AdminRoomDeleted(id) => DeleteAdminRoom(rooms, id)
    case AdminRoomUpdated(p) => PatchAdminRoom(rooms, p)
    case RoomOnlineUpdated(id, online, total) => SetRoomMembers(rooms, id, online, total)
    case RoomMessagesUpdated(id, count) => SetRoomMessages(rooms, id, count)
    case _ => rooms
  }

  /** `activeUsers`: the online users in order, none without a table. */
  function ActiveUsers(users: Option<seq<AdminUser>>): (r: seq<AdminUser>)
    ensures forall i :: 0 <= i < |r| ==> r[i].isOnline
    ensures users.Some? ==> forall i :: 0 <= i < |users.value| && users.value[i].isOnline ==> users.value[i] in r
    ensures users.Some? ==> IsSubseq(r, users.value)
    ensures users.None? ==> r == []
  {
    if users.Some? then Filter(users.value, (u: AdminUser) => u.isOnline) else []
  }

  /** `inactiveUsers`: the offline users in order, none without a table. */
  function InactiveUsers(users: Option<seq<AdminUser>>): (r: seq<AdminUser>)
    ensures forall i :: 0 <= i < |r| ==> !r[i].isOnline
    ensures users.Some? ==> forall i :: 0 <= i < |users.value| && !users.value[i].isOnline ==> users.value[i] in r
    ensures users.Some? ==> IsSubseq(r, users.value)
    ensures users.None? ==> r == []
  {
    if users.Some? then Filter(users.value, (u: AdminUser) => !u.isOnline) else []
  }

  function TotalUsers(users: Option<seq<AdminUser>>): nat {
    if users.Some? then |users.value| else 0
  }

  /** The online count and the offline count add up to the total. */
  lemma ActivePlusInactiveIsTotal(users: Option<seq<AdminUser>>)
    ensures |ActiveUsers(users)| + |InactiveUsers(users)| == TotalUsers(users)
  {
    if users.Some? {
      FilterPartition(users.value, (u: AdminUser) => u.isOnline, (u: AdminUser) => !u.isOnline);
    }
  }

  datatype UserFilter = All | OnlineOnly | OfflineOnly

  predicate FilterKeeps(f: UserFilter, u: AdminUser) {
    if f.OnlineOnly? then u.isOnline else if f.OfflineOnly? then !u.isOnline else true
  }

  /** The filter's test as the callback handed to `filter`. */
  function KeepFor(f: UserFilter): AdminUser -> bool {
    (u: AdminUser) => FilterKeeps(f, u)
  }

  /** `filteredUsers`: "online" gives exactly the online users, "offline" the
      offline ones and "all" every user, each in table order. */
  function FilteredUsers(users: Option<seq<AdminUser>>, f: UserFilter): (r: Option<seq<AdminUser>>)
    ensures r.Some? <==> users.Some?
    ensures users.Some? && f.All? ==> r == users
    ensures users.Some? && f.OnlineOnly? ==> r.value == ActiveUsers(users)
    ensures users.Some? && f.OfflineOnly? ==> r.value == InactiveUsers(users)
  {
    if users.None? then None
    else
      FilterMatchesCounts(users.value, f);
      Some(Filter(users.value, KeepFor(f)))
  }

  /** The three filters against the two derived lists. */
  lemma FilterMatchesCounts(users: seq<AdminUser>, f: UserFilter)
    ensures f.All? ==> Filter(users, KeepFor(f)) == users
    ensures f.OnlineOnly? ==> Filter(users, KeepFor(f)) == ActiveUsers(Some(users))
    ensures f.OfflineOnly? ==> Filter(users, KeepFor(f)) == InactiveUsers(Some(users))
  {
    if f.All? {
      FilterKeepsAll(users, KeepFor(f));
    } else if f.OnlineOnly? {
      FilterSameTest(users, KeepFor(f), (u: AdminUser) => u.isOnline);
    } else {
      FilterSameTest(users, KeepFor(f), (u: AdminUser) => !u.isOnline);
    }
  }

  /** The rename request: the room and the name exactly as typed. */
  datatype RoomUpdate = RoomUpdate(roomId: string, name: string)

  class Dashboard {
    var editingRoom: Option<string>
    var newRoomName: string
    var userFilter: UserFilter
    var realtimeUsers: Option<seq<AdminUser>>
    var realtimeRooms: Option<seq<AdminRoom>>
    /** Whether the admin handlers are registered. */
    var listening: bool

    /** The tables start as the queries' first answers. */
    constructor (users: Option<seq<AdminUser>>, rooms: Option<seq<AdminRoom>>)
      ensures realtimeUsers == users && realtimeRooms == rooms
      ensures editingRoom.None? && newRoomName == "" && userFilter.All? && !listening
    {
      editingRoom := None;
      newRoomName := "";
      userFilter := All;
      realtimeUsers := users;
      realtimeRooms := rooms;
      listening := false;
    }

    /** A new answer of the users query replaces the table; none leaves it. */
    method SeedUsers(users: Option<seq<AdminUser>>)
      modifies this`realtimeUsers
      ensures realtimeUsers == if users.Some? then users else old(realtimeUsers)
    {
      if users.Some? {
        realtimeUsers := users;
      }
    }

    method SeedRooms(rooms: Option<seq<AdminRoom>>)
      modifies this`realtimeRooms
      ensures realtimeRooms == if rooms.Some? then rooms else old(realtimeRooms)
    {
      if rooms.Some? {
        realtimeRooms := rooms;
      }
    }

    method SetConnection(hasSocket: bool, connected: bool)
      modifies this`listening
      ensures listening == (hasSocket && connected)
    {
      listening := hasSocket && connected;
    }

    /** An admin event, applied to both tables while listening. */
    method OnAdminEvent(e: AdminEvent)
      modifies this`realtimeUsers, this`realtimeRooms
      ensures realtimeUsers == if listening then ApplyUserEvent(old(realtimeUsers), e) else old(realtimeUsers)
      ensures realtimeRooms == if listening then ApplyAdminRoomEvent(old(realtimeRooms), e) else old(realtimeRooms)
    {
      if listening {
        realtimeUsers := ApplyUserEvent(realtimeUsers, e);
        realtimeRooms := ApplyAdminRoomEvent(realtimeRooms, e);
      }
    }

    method SetUserFilter(f: UserFilter)
      modifies this`userFilter
      ensures userFilter == f
    {
      userFilter := f;
    }

    /** The edit button: edit that room, starting from its current name. */
    method StartEdit(room: AdminRoom)
      modifies this`editingRoom, this`newRoomName
      ensures editingRoom == Some(room.id) && newRoomName == room.name
    {
      editingRoom := Some(room.id);
      newRoomName := room.name;
    }

    method EditName(text: string)
      modifies this`newRoomName
      ensures newRoomName == text
    {
      newRoomName := text;
    }

    method CancelEdit()
      modifies this`editingRoom, this`newRoomName
      ensures editingRoom.None? && newRoomName == ""
    {
      editingRoom := None;
      newRoomName := "";
    }

    /** `handleUpdateRoom`: a name that trims to nothing is refused before any
        request; otherwise the name is sent as typed, untrimmed. Success ends
        the edit; failure keeps it and shows the server's message or the
        fallback. `outcome` is how the server answers, if asked. */
    method HandleUpdateRoom(roomId: string, outcome: MutationOutcome)
      returns (request: Option<RoomUpdate>, notice: string)
      modifies this`editingRoom, this`newRoomName
      ensures request.None? <==> Trim(old(newRoomName)) == ""
      ensures request.None? ==>
                notice == "Room name cannot be empty" &&
                editingRoom == old(editingRoom) && newRoomName == old(newRoomName)
      ensures request.Some? ==> request.value == RoomUpdate(roomId, old(newRoomName))
      ensures request.Some? && outcome.Fulfilled? ==>
                notice == "Room updated successfully" && editingRoom.None? && newRoomName == ""
      ensures request.Some? && outcome.Rejected? ==>
                notice == MutationErrorText(outcome, "Failed to update room") &&
                editingRoom == old(editingRoom) && newRoomName == old(newRoomName)
    {
      if Trim(newRoomName) == "" {
        return None, "Room name cannot be empty";
      }
      request := Some(RoomUpdate(roomId, newRoomName));
      if outcome.Fulfilled? {
        editingRoom := None;
        newRoomName := "";
        notice := "Room updated successfully";
      } else {
        notice := MutationErrorText(outcome, "Failed to update room");
      }
    }
  }

  /** `handleDeleteRoom`: nothing unless confirmed; then the delete request and
      the success notice or the server's message with its fallback. */
  function HandleDeleteRoom(roomId: string, confirmed: bool, outcome: MutationOutcome)
    : (r: (Option<string>, Option<string>))
    ensures r.0.Some? <==> confirmed
    ensures r.0.Some? ==> r.0.value == roomId
    ensures !confirmed ==> r.1.None?
    ensures confirmed && outcome.Fulfilled? ==> r.1 == Some("Room deleted successfully")
    ensures confirmed && outcome.Rejected? ==> r.1 == Some(MutationErrorText(outcome, "Failed to delete room"))
  {
    if !confirmed then (None, None)
    else if outcome.Fulfilled? then (Some(roomId), Some("Room deleted successfully"))
    else (Some(roomId), Some(MutationErrorText(outcome, "Failed to delete room")))
  }
}

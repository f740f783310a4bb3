/** The room list: the joined and public lists seeded from the rooms queries,
    kept current by socket events, shown per tab and narrowed by a search. */
module RoomList {
  import opened Common
  import opened Strings
  import opened Lists

  /** The fields of a room the list reads. */
  datatype Room = Room(
    id: string,
    name: string,
    description: Option<string>,
    isPrivate: bool,
    isMember: bool,
    isCreator: bool,
    counts: RoomCounts)

  /** The room's `_count`: its memberships and its messages. */
  datatype RoomCounts = RoomCounts(memberships: nat, messages: nat)

  /** The payload of "room:updated": the room's id and whichever fields the
      server sent. */
  datatype RoomPatch = RoomPatch(
    id: string,
    name: Option<string>,
    description: Option<Option<string>>,
    isPrivate: Option<bool>,
    isMember: Option<bool>,
    isCreator: Option<bool>,
    counts: Option<RoomCounts>)

  /** `{ ...r, ...room }`: every field the payload carries wins. */
  function Overlay(r: Room, p: RoomPatch): (o: Room)
    ensures o.id == p.id
    ensures o.name == p.name.GetOr(r.name) && o.description == p.description.GetOr(r.description)
    ensures o.isPrivate == p.isPrivate.GetOr(r.isPrivate) && o.isMember == p.isMember.GetOr(r.isMember)
    ensures o.isCreator == p.isCreator.GetOr(r.isCreator)
    ensures o.counts == p.counts.GetOr(r.counts)
  {
    Room(p.id, p.name.GetOr(r.name), p.description.GetOr(r.description),
         p.isPrivate.GetOr(r.isPrivate), p.isMember.GetOr(r.isMember),
         p.isCreator.GetOr(r.isCreator), p.counts.GetOr(r.counts))
  }

  function RoomIds(rooms: seq<Room>): (ids: seq<string>)
    ensures |ids| == |rooms|
    ensures forall i :: 0 <= i < |rooms| ==> ids[i] == rooms[i].id
  {
    MapSeq(rooms, (r: Room) => r.id)
  }

  /** The "room:updated" updater: the rooms with the payload's id get the
      overlay, the others stay as they are and where they are. */
  function UpdateRooms(rooms: seq<Room>, p: RoomPatch): (r: seq<Room>)
    ensures |r| == |rooms|
    ensures forall i :: 0 <= i < |rooms| && rooms[i].id == p.id ==> r[i] == Overlay(rooms[i], p)
    ensures forall i :: 0 <= i < |rooms| && rooms[i].id != p.id ==> r[i] == rooms[i]
  {
    MapWhere(rooms, (x: Room) => x.id == p.id, (x: Room) => Overlay(x, p))
  }

  /** The "room:deleted" updater: every room with that id goes, the others stay
      in order. */
  function DeleteRoom(rooms: seq<Room>, roomId: string): (r: seq<Room>)
    ensures forall i :: 0 <= i < |r| ==> r[i].id != roomId
    ensures forall i :: 0 <= i < |rooms| && rooms[i].id != roomId ==> rooms[i] in r
    ensures forall x :: multiset(r)[x] == if x.id != roomId then multiset(rooms)[x] else 0
    ensures IsSubseq(r, rooms)
  {
    FilterMultiset(rooms, (x: Room) => x.id != roomId);
    Filter(rooms, (x: Room) => x.id != roomId)
  }

  /** An update keeps the sequence of ids. */
  lemma UpdateKeepsIds(rooms: seq<Room>, p: RoomPatch)
    ensures RoomIds(UpdateRooms(rooms, p)) == RoomIds(rooms)
  {
  }

  /** An update or deletion for an id that is not listed changes nothing. */
  lemma AbsentIdIsNoop(rooms: seq<Room>, p: RoomPatch, roomId: string)
    requires p.id !in RoomIds(rooms) && roomId !in RoomIds(rooms)
    ensures UpdateRooms(rooms, p) == rooms
    ensures DeleteRoom(rooms, roomId) == rooms
  {
    forall i | 0 <= i < |rooms| ensures rooms[i].id != p.id && rooms[i].id != roomId {
      assert RoomIds(rooms)[i] == rooms[i].id;
    }
    FilterKeepsAll(rooms, (x: Room) => x.id != roomId);
  }

  /** The room events the list listens to. "room:created" only refetches. */
  datatype RoomEvent = RoomCreated(room: Room) | RoomUpdated(patch: RoomPatch) | RoomDeleted(roomId: string)

  /** What an event does to one local list. */
  function ApplyRoomEvent(rooms: seq<Room>, e: RoomEvent): (r: seq<Room>)
    ensures e.RoomCreated? ==> r == rooms
    ensures e.RoomUpdated? ==> RoomIds(r) == RoomIds(rooms)
    ensures e.RoomDeleted? ==> e.roomId !in RoomIds(r) && IsSubseq(r, rooms)
  {
    match e
    case RoomCreated(_) => rooms
    case RoomUpdated(p) => UpdateKeepsIds(rooms, p); UpdateRooms(rooms, p)
    case RoomDeleted(id) =>
      var r := DeleteRoom(rooms, id);
      assert forall i :: 0 <= i < |r| ==> RoomIds(r)[i] != id;
      r
  }

  function ApplyRoomEvents(rooms: seq<Room>, events: seq<RoomEvent>): seq<Room>
    decreases |events|
  {
    if events == [] then rooms else ApplyRoomEvents(ApplyRoomEvent(rooms, events[0]), events[1..])
  }

  /** A list whose ids are distinct keeps them distinct through any sequence
      of room events. */
  lemma {:induction false} EventsKeepIdsDistinct(rooms: seq<Room>, events: seq<RoomEvent>)
    requires NoDuplicates(RoomIds(rooms))
    ensures NoDuplicates(RoomIds(ApplyRoomEvents(rooms, events)))
    decreases |events|
  {
    if events != [] {
      var next := ApplyRoomEvent(rooms, events[0]);
      if events[0].RoomDeleted? {
        SubseqMapSeq(next, rooms, (r: Room) => r.id);
        SubseqNoDuplicates(RoomIds(next), RoomIds(rooms));
      }
      EventsKeepIdsDistinct(next, events[1..]);
    }
  }

  /** After "room:deleted", the user is sent back to the list when the current
      path contains the room id. */
  predicate LeavesDeletedRoom(path: string, roomId: string) {
    Contains(path, roomId)
  }

  /** Viewing the deleted room's page always triggers the redirect. */
  lemma RoomPageLeavesDeletedRoom(roomId: string)
    ensures LeavesDeletedRoom("/chat/rooms/" + roomId, roomId)
  {
    var path := "/chat/rooms/" + roomId;
    assert path[12..12 + |roomId|] == roomId;
    ContainsIff(path, roomId, 12);
  }

  datatype Tab = Joined | Public

  function DisplayedRooms(tab: Tab, joined: seq<Room>, publicRooms: seq<Room>): (r: seq<Room>)
    ensures tab.Joined? ==> r == joined
    ensures tab.Public? ==> r == publicRooms
  {
    if tab.Joined? then joined else publicRooms
  }

  /** The search test: the lower-cased query occurs in the lower-cased name,
      id, or non-empty description. */
  predicate RoomMatches(room: Room, query: string) {
    var q := Lower(query);
    || Contains(Lower(room.name), q)
    || Contains(Lower(room.id), q)
    || (Truthy(room.description) && Contains(Lower(room.description.value), q))
  }

  /** `filteredRooms`: the rooms of the tab that match, in their order. */
  function FilteredRooms(rooms: seq<Room>, query: string): (r: seq<Room>)
    ensures forall i :: 0 <= i < |r| ==> RoomMatches(r[i], query) && r[i] in rooms
    ensures forall i :: 0 <= i < |rooms| && RoomMatches(rooms[i], query) ==> rooms[i] in r
    ensures forall x :: multiset(r)[x] == if RoomMatches(x, query) then multiset(rooms)[x] else 0
    ensures IsSubseq(r, rooms)
  {
    FilterMultiset(rooms, (x: Room) => RoomMatches(x, query));
    Filter(rooms, (x: Room) => RoomMatches(x, query))
  }

  /** An empty search shows every room. */
  lemma EmptyQueryKeepsAll(rooms: seq<Room>)
    ensures FilteredRooms(rooms, "") == rooms
  {
    forall i | 0 <= i < |rooms| ensures RoomMatches(rooms[i], "") {
      ContainsEmpty(Lower(rooms[i].name));
    }
    FilterKeepsAll(rooms, (x: Room) => RoomMatches(x, ""));
  }

  /** The Join button shows for rooms the user is not a member of. */
  predicate ShowsJoinButton(room: Room) {
    !room.isMember
  }

  /** The room a row's Join button asks to join, if the row has the button. */
  function JoinTarget(room: Room): (target: Option<string>)
    ensures target.Some? <==> ShowsJoinButton(room)
    ensures target.Some? ==> target.value == room.id
  {
    if room.isMember then None else Some(room.id)
  }

  /** A "room:updated" payload that makes the user a member hides that room's
      Join button; every other row keeps its button as it was. */
  lemma MembershipUpdateHidesJoin(rooms: seq<Room>, p: RoomPatch)
    requires p.isMember == Some(true)
    ensures var r := UpdateRooms(rooms, p);
            forall i :: 0 <= i < |r| ==>
              JoinTarget(r[i]) == if rooms[i].id == p.id then None else JoinTarget(rooms[i])
  {
    var r := UpdateRooms(rooms, p);
    forall i | 0 <= i < |r|
      ensures JoinTarget(r[i]) == if rooms[i].id == p.id then None else JoinTarget(rooms[i])
    {
      if rooms[i].id == p.id {
        assert r[i] == Overlay(rooms[i], p);
      }
    }
  }

  class RoomListView {
    var localJoined: seq<Room>
    var localPublic: seq<Room>
    /** Whether the room handlers are registered: socket present and connected. */
    var listening: bool

    constructor ()
      ensures localJoined == [] && localPublic == [] && !listening
    {
      localJoined := [];
      localPublic := [];
      listening := false;
    }

    /** The seeding effects: a response carrying `data.rooms` replaces that
        list; any other response leaves it. */
    method SeedJoined(response: Option<seq<Room>>)
      modifies this`localJoined
      ensures localJoined == if response.Some? then response.value else old(localJoined)
    {
      if response.Some? {
        localJoined := response.value;
      }
    }

    method SeedPublic(response: Option<seq<Room>>)
      modifies this`localPublic
      ensures localPublic == if response.Some? then response.value else old(localPublic)
    {
      if response.Some? {
        localPublic := response.value;
      }
    }

    method SetConnection(hasSocket: bool, connected: bool)
      modifies this`listening
      ensures listening == (hasSocket && connected)
    {
      listening := hasSocket && connected;
    }

    /** A room event, while listening: both lists are updated the same way, and
        a deletion seen from a page of that room navigates back to the list
        and returns the notice to show. */
    method OnRoomEvent(e: RoomEvent, browser: Browser) returns (notice: Option<string>)
      modifies this`localJoined, this`localPublic, browser`navigations
      ensures !old(listening) ==>
                localJoined == old(localJoined) && localPublic == old(localPublic) &&
                browser.navigations == old(browser.navigations) && notice.None?
      ensures old(listening) ==>
                localJoined == ApplyRoomEvent(old(localJoined), e) &&
                localPublic == ApplyRoomEvent(old(localPublic), e)
      ensures old(listening) && e.RoomDeleted? && LeavesDeletedRoom(browser.pathname, e.roomId) ==>
                browser.navigations == old(browser.navigations) + [Push("/chat/rooms")] &&
                notice == Some("This room has been deleted by an administrator.")
      ensures !(old(listening) && e.RoomDeleted? && LeavesDeletedRoom(browser.pathname, e.roomId)) ==>
                browser.navigations == old(browser.navigations) && notice.None?
    {
      notice := None;
      if !listening {
        return;
      }
      match e
      case RoomCreated(_) =>
      case RoomUpdated(p) =>
        localJoined := UpdateRooms(localJoined, p);
        localPublic := UpdateRooms(localPublic, p);
      case RoomDeleted(id) =>
        localJoined := DeleteRoom(localJoined, id);
        localPublic := DeleteRoom(localPublic, id);
        if Contains(browser.pathname, id) {
          browser.Navigate(Push("/chat/rooms"));
          notice := Some("This room has been deleted by an administrator.");
        }
    }
  }
}

/** The message list of a room: the first page from the messages query, older
    pages loaded on demand, and the real-time updaters applied to the list as
    socket events arrive. */
module MessageList {
  import opened Common
  import opened Strings
  import opened Lists
  import opened SocketRoom

  /** The fields of a message the list logic reads. */
  datatype Message = Message(
    id: string,
    senderId: string,
    content: string,
    msgType: Option<string>,
    action: Option<string>)

  /** `data.data`: a page of messages, the cursor of the next older page, and
      whether there is one. */
  datatype MessagePage = MessagePage(messages: seq<Message>, nextCursor: Option<string>, hasMore: Option<bool>)

  /** The ids of a list, in order. */
  function Ids(list: seq<Message>): (ids: seq<string>)
    ensures |ids| == |list|
    ensures forall i :: 0 <= i < |list| ==> ids[i] == list[i].id
  {
    if list == [] then [] else [list[0].id] + Ids(list[1..])
  }

  /** `[...prev, message]`, used for new messages and for system notices. */
  function Append(list: seq<Message>, m: Message): (r: seq<Message>)
    ensures |r| == |list| + 1
    ensures r[..|list|] == list && r[|list|] == m
  {
    list + [m]
  }

  /** `[...olderMessages, ...prev]`: the older page in front, the list behind
      it unchanged. */
  function PrependOlder(older: seq<Message>, list: seq<Message>): (r: seq<Message>)
    ensures |r| == |older| + |list|
    ensures r[..|older|] == older && r[|older|..] == list
  {
    older + list
  }

  /** `prev.map(msg => msg.id === message.id ? message : msg)`. */
  function ReplaceById(list: seq<Message>, m: Message): (r: seq<Message>)
    ensures |r| == |list|
    ensures forall i :: 0 <= i < |list| && list[i].id == m.id ==> r[i] == m
    ensures forall i :: 0 <= i < |list| && list[i].id != m.id ==> r[i] == list[i]
  {
    MapWhere(list, (x: Message) => x.id == m.id, (_: Message) => m)
  }

  /** `prev.filter(msg => msg.id !== messageId)`. */
  function DeleteById(list: seq<Message>, id: string): (r: seq<Message>)
    ensures |r| <= |list|
    ensures forall i :: 0 <= i < |r| ==> r[i].id != id && r[i] in list
    ensures forall i :: 0 <= i < |list| && list[i].id != id ==> list[i] in r
    ensures forall x :: multiset(r)[x] == if x.id != id then multiset(list)[x] else 0
    ensures IsSubseq(r, list)
  {
    FilterMultiset(list, (x: Message) => x.id != id);
    Filter(list, (x: Message) => x.id != id)
  }

  /** An update leaves the sequence of ids as it was. */
  lemma ReplaceKeepsIds(list: seq<Message>, m: Message)
    ensures Ids(ReplaceById(list, m)) == Ids(list)
  {
  }

  /** An update for an id that is not in the list changes nothing. */
  lemma ReplaceAbsentIsNoop(list: seq<Message>, m: Message)
    requires m.id !in Ids(list)
    ensures ReplaceById(list, m) == list
  {
    assert forall i :: 0 <= i < |list| ==> list[i].id != m.id by {
      forall i | 0 <= i < |list| ensures list[i].id != m.id {
        assert Ids(list)[i] == list[i].id;
      }
    }
  }

  /** A deletion for an id that is not in the list changes nothing. */
  lemma DeleteAbsentIsNoop(list: seq<Message>, id: string)
    requires id !in Ids(list)
    ensures DeleteById(list, id) == list
  {
    forall i | 0 <= i < |list| ensures list[i].id != id {
      assert Ids(list)[i] == list[i].id;
    }
    FilterKeepsAll(list, (x: Message) => x.id != id);
  }

  /** Deleting an id and then receiving a new message with another id gives the
      same list as the other order. */
  lemma DeleteCommutesWithAppend(list: seq<Message>, m: Message, id: string)
    requires m.id != id
    ensures DeleteById(Append(list, m), id) == Append(DeleteById(list, id), m)
  {
    var keep := (x: Message) => x.id != id;
    FilterAppend(list, [m], keep);
    assert Filter([m], keep) == [m] by {
      assert [m][1..] == [];
    }
  }

  /** A message renders as a system notice iff its type is "SYSTEM" and its
      action is a join or a leave. */
  predicate IsSystemNotice(m: Message) {
    m.msgType == Some("SYSTEM") && (m.action == Some("USER_JOINED") || m.action == Some("USER_LEFT"))
  }

  /** How one message of the list is drawn: a centred notice with a join or a
      leave icon, or a chat bubble, on the right when it is the user's own. */
  datatype MessageRow = NoticeRow(joined: bool, text: string) | ChatRow(message: Message, own: bool)

  /** The row of `m` for the signed-in user `currentUserId`. Without a user no
      message is the user's own (`senderId === undefined` never holds). */
  function RenderRow(m: Message, currentUserId: Option<string>): (row: MessageRow)
    ensures row.NoticeRow? <==> IsSystemNotice(m)
    ensures row.NoticeRow? ==> (row.joined <==> m.action == Some("USER_JOINED")) && row.text == m.content
    ensures row.ChatRow? ==> row.message == m && (row.own <==> currentUserId == Some(m.senderId))
  {
    if IsSystemNotice(m) then NoticeRow(m.action == Some("USER_JOINED"), m.content)
    else ChatRow(m, currentUserId.Some? && currentUserId.value == m.senderId)
  }

  /** The events the list listens to while in the room. */
  datatype MessageEvent =
    | NewMessage(message: Message)
    | MessageUpdated(message: Message)
    | MessageDeleted(messageId: string)
    | UserJoinedSystem(notice: Message)
    | UserLeftSystem(notice: Message)

  /** The updater each handler passes to `setAllMessages`. */
  function ApplyMessageEvent(list: seq<Message>, e: MessageEvent): (r: seq<Message>)
    ensures e.NewMessage? ==> r == Append(list, e.message)
    ensures e.UserJoinedSystem? || e.UserLeftSystem? ==> r == Append(list, e.notice)
    ensures e.MessageUpdated? ==> Ids(r) == Ids(list)
    ensures e.MessageDeleted? ==> e.messageId !in Ids(r) && IsSubseq(r, list)
  {
    match e
    case NewMessage(m) => Append(list, m)
    case MessageUpdated(m) => ReplaceKeepsIds(list, m); ReplaceById(list, m)
    case MessageDeleted(id) => DeleteById(list, id)
    case UserJoinedSystem(m) => Append(list, m)
    case UserLeftSystem(m) => Append(list, m)
  }

  /** What the list area shows before the messages. */
  datatype Screen = LoadingMessages | LoadFailed(detail: string) | NoMessagesYet | ShowMessages

  /** The render decision: loading first, then an error with the server's
      message or "Please try again", then the empty state. */
  function ScreenFor(isLoading: bool, error: Option<Option<string>>, count: nat): (s: Screen)
    ensures s.LoadingMessages? <==> isLoading
    ensures s.LoadFailed? ==> s.detail != ""
    ensures !isLoading && error.Some? && Truthy(error.value) ==> s == LoadFailed(error.value.value)
    ensures !isLoading && error.Some? && !Truthy(error.value) ==> s == LoadFailed("Please try again")
    ensures s.NoMessagesYet? <==> !isLoading && error.None? && count == 0
    ensures s.ShowMessages? <==> !isLoading && error.None? && count > 0
  {
    if isLoading then LoadingMessages
    else if error.Some? then LoadFailed(OrElse(error.value, "Please try again"))
    else if count == 0 then NoMessagesYet
    else ShowMessages
  }

  /** The request `loadMoreMessages` sends: the room, the cursor, 15 messages. */
  datatype PageRequest = PageRequest(roomId: string, cursor: string, limit: nat)

  /** How the older-page fetch ended. */
  datatype LoadOutcome = PageOk(page: MessagePage) | NotOkResponse | LoadThrew

  /** The emits of the listener effect. */
  datatype RoomEmit = JoinRoom(roomId: string) | LeaveRoom(roomId: string)

  /** The effect's dependencies besides the room: the socket and the flag. */
  datatype ListenDeps = ListenDeps(socket: Option<nat>, connected: bool)

  class MessageListView {
    const roomId: string
    var allMessages: seq<Message>
    var cursor: Option<string>
    var hasMore: bool
    var isLoadingMore: bool
    /** Whether the handlers are registered. */
    var listening: bool
    var lastDeps: Option<ListenDeps>
    var emitted: seq<RoomEmit>

    constructor (room: string)
      ensures roomId == room
      ensures allMessages == [] && cursor.None? && !hasMore && !isLoadingMore
      ensures !listening && lastDeps.None? && emitted == []
    {
      roomId := room;
      allMessages := [];
      cursor := None;
      hasMore := false;
      isLoadingMore := false;
      listening := false;
      lastDeps := None;
      emitted := [];
    }

    /** The seeding effect: a page replaces the list, the cursor and `hasMore`
        (absent counts as false); no page changes nothing. */
    method Seed(page: Option<MessagePage>)
      modifies this`allMessages, this`cursor, this`hasMore
      ensures page.Some? ==>
                allMessages == page.value.messages && cursor == page.value.nextCursor &&
                hasMore == page.value.hasMore.GetOr(false)
      ensures page.None? ==>
                allMessages == old(allMessages) && cursor == old(cursor) && hasMore == old(hasMore)
    {
      if page.Some? {
        allMessages := page.value.messages;
        cursor := page.value.nextCursor;
        hasMore := page.value.hasMore.GetOr(false);
      }
    }

    /** The synchronous start of `loadMoreMessages`: nothing without a cursor
        or while a load is running; otherwise the load is marked as running and
        the request for the next older page is returned. */
    method BeginLoadMore() returns (request: Option<PageRequest>)
      modifies this`isLoadingMore
      ensures request.Some? <==> Truthy(old(cursor)) && !old(isLoadingMore)
      ensures request.Some? ==> request.value == PageRequest(roomId, cursor.value, 15) && isLoadingMore
      ensures request.None? ==> isLoadingMore == old(isLoadingMore)
    {
      if !Truthy(cursor) || isLoadingMore {
        return None;
      }
      isLoadingMore := true;
      request := Some(PageRequest(roomId, cursor.value, 15));
    }

    /** The end of `loadMoreMessages`: an ok page goes in front of the list
        as it is now and replaces the cursor and `hasMore`; a failure changes
        nothing; the load is over either way. */
    method FinishLoadMore(outcome: LoadOutcome)
      modifies this`allMessages, this`cursor, this`hasMore, this`isLoadingMore
      ensures !isLoadingMore
      ensures outcome.PageOk? ==>
                allMessages == PrependOlder(outcome.page.messages, old(allMessages)) &&
                cursor == outcome.page.nextCursor && hasMore == outcome.page.hasMore.GetOr(false)
      ensures !outcome.PageOk? ==>
                allMessages == old(allMessages) && cursor == old(cursor) && hasMore == old(hasMore)
    {
      if outcome.PageOk? {
        allMessages := PrependOlder(outcome.page.messages, allMessages);
        cursor := outcome.page.nextCursor;
        hasMore := outcome.page.hasMore.GetOr(false);
      }
      isLoadingMore := false;
    }

    /** The listener effect, re-run when the socket or the connection flag
        changes: the old registration leaves the room, a new one joins it. */
    method SyncListeners(socket: Option<nat>, connected: bool)
      modifies this`listening, this`lastDeps, this`emitted
      ensures lastDeps == Some(ListenDeps(socket, connected))
      ensures old(lastDeps) == lastDeps ==> listening == old(listening) && emitted == old(emitted)
      ensures old(lastDeps) != lastDeps ==>
                listening == ListenersActive(socket.Some?, connected, roomId) &&
                emitted == old(emitted) + (if old(listening) then [LeaveRoom(roomId)] else [])
                                        + (if listening then [JoinRoom(roomId)] else [])
    {
      var deps := ListenDeps(socket, connected);
      if lastDeps != Some(deps) {
        var left: seq<RoomEmit> := if listening then [LeaveRoom(roomId)] else [];
        listening := ListenersActive(socket.Some?, connected, roomId);
        var joined: seq<RoomEmit> := if listening then [JoinRoom(roomId)] else [];
        emitted := emitted + left + joined;
        lastDeps := Some(deps);
      }
    }

    /** A socket event: applied to the list when the handlers are registered,
        ignored otherwise. */
    method OnSocketEvent(e: MessageEvent)
      modifies this`allMessages
      ensures allMessages == if listening then ApplyMessageEvent(old(allMessages), e) else old(allMessages)
    {
      if listening {
        allMessages := ApplyMessageEvent(allMessages, e);
      }
    }
  }
}

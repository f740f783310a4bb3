/** The room hook: while the socket is connected and a room is open it listens
    for typing events, keeps the list of typists, and schedules the removal of
    each typist three seconds after each typing event. */
module SocketRoom {
  import opened Lists
  import opened Typing

  const TypingExpiryMs := 3000

  /** Room listeners are registered only with a socket, a live connection and
      a room id. */
  predicate ListenersActive(hasSocket: bool, connected: bool, roomId: string) {
    hasSocket && connected && roomId != ""
  }

  class RoomTypingTracker {
    const roomId: string
    var typingUsers: seq<string>
    /** The names whose 3000 ms removal timers are still pending, one entry per
        typing event, in the order they were scheduled. */
    var pendingExpiries: seq<string>
    /** Whether the typing handlers are registered. */
    var listening: bool

    ghost predicate Valid()
      reads this
    {
      NoDuplicates(typingUsers)
    }

    constructor (room: string)
      ensures Valid()
      ensures roomId == room && typingUsers == [] && pendingExpiries == [] && !listening
    {
      roomId := room;
      typingUsers := [];
      pendingExpiries := [];
      listening := false;
    }

    method SetConnection(hasSocket: bool, connected: bool)
      modifies this`listening
      ensures listening == ListenersActive(hasSocket, connected, roomId)
    {
      listening := ListenersActive(hasSocket, connected, roomId);
    }

    /** "user:typing": the name is added if absent, and its own removal is
        scheduled whether or not it was already listed. */
    method OnUserTyping(name: string)
      requires Valid()
      modifies this`typingUsers, this`pendingExpiries
      ensures Valid()
      ensures old(listening) ==>
                typingUsers == AddTypist(old(typingUsers), name) && pendingExpiries == old(pendingExpiries) + [name]
      ensures !old(listening) ==> typingUsers == old(typingUsers) && pendingExpiries == old(pendingExpiries)
    {
      if listening {
        typingUsers := AddTypist(typingUsers, name);
        pendingExpiries := pendingExpiries + [name];
      }
    }

    /** "user:stopped-typing": the name is removed; its pending timers stay. */
    method OnUserStoppedTyping(name: string)
      requires Valid()
      modifies this`typingUsers
      ensures Valid()
      ensures typingUsers == if old(listening) then RemoveTypist(old(typingUsers), name) else old(typingUsers)
    {
      if listening {
        RemoveKeepsNoDuplicates(typingUsers, name);
        typingUsers := RemoveTypist(typingUsers, name);
      }
    }

    /** The `i`-th pending timer fires: its name is removed. Timers are not
        cancelled when the handlers are, so this happens while not listening too. */
    method OnExpiry(i: nat)
      requires Valid()
      requires i < |pendingExpiries|
      modifies this`typingUsers, this`pendingExpiries
      ensures Valid()
      ensures typingUsers == RemoveTypist(old(typingUsers), old(pendingExpiries)[i])
      ensures pendingExpiries == old(pendingExpiries)[..i] + old(pendingExpiries)[i + 1..]
    {
      var name := pendingExpiries[i];
      RemoveKeepsNoDuplicates(typingUsers, name);
      typingUsers := RemoveTypist(typingUsers, name);
      pendingExpiries := pendingExpiries[..i] + pendingExpiries[i + 1..];
    }
  }
}

/** The online-users panel: a record from user id to online flag, updated by
    "presence_update" events and rendered one row per key. The record is kept
    as its entries in key-insertion order, the order `Object.entries` lists
    them: updating an existing key keeps its place, a new key goes last. */
module OnlineUsers {
  import opened Common
  import opened Lists

  datatype Entry = Entry(userId: string, online: bool)

  /** The keys of the record, in order. */
  function Keys(entries: seq<Entry>): (keys: seq<string>)
    ensures |keys| == |entries|
    ensures forall i :: 0 <= i < |entries| ==> keys[i] == entries[i].userId
  {
    MapSeq(entries, (e: Entry) => e.userId)
  }

  /** `users[userId]`: the flag stored under a key, or nothing when the key
      is absent. */
  function Lookup(entries: seq<Entry>, userId: string): (r: Option<bool>)
    ensures r.None? <==> forall i :: 0 <= i < |entries| ==> entries[i].userId != userId
    ensures r.Some? ==> exists i :: 0 <= i < |entries| && entries[i] == Entry(userId, r.value)
  {
    if entries == [] then None
    else if entries[0].userId == userId then Some(entries[0].online)
    else
      var rest := Lookup(entries[1..], userId);
      assert forall i :: 1 <= i < |entries| ==> entries[i] == entries[1..][i - 1];
      rest
  }

  function IsUser(userId: string): Entry -> bool {
    (e: Entry) => e.userId == userId
  }

  function WithOnline(online: bool): Entry -> Entry {
    (e: Entry) => e.(online := online)
  }

  /** `{...prev, [userId]: online}`. */
  function PresenceUpdate(entries: seq<Entry>, userId: string, online: bool): (r: seq<Entry>)
    ensures Lookup(entries, userId).Some? ==> Keys(r) == Keys(entries)
    ensures Lookup(entries, userId).None? ==> Keys(r) == Keys(entries) + [userId]
  {
    if Lookup(entries, userId).Some? then MapWhere(entries, IsUser(userId), WithOnline(online))
    else entries + [Entry(userId, online)]
  }

  /** After an update the key holds the new flag. */
  lemma PresenceUpdateStores(entries: seq<Entry>, userId: string, online: bool)
    ensures Lookup(PresenceUpdate(entries, userId, online), userId) == Some(online)
  {
    if Lookup(entries, userId).Some? {
      LookupMapWhere(entries, userId, online, userId);
    } else {
      LookupAppend(entries, Entry(userId, online), userId);
    }
  }

  /** An update leaves every other key's flag as it was. */
  lemma PresenceUpdateKeepsOthers(entries: seq<Entry>, userId: string, online: bool, other: string)
    requires other != userId
    ensures Lookup(PresenceUpdate(entries, userId, online), other) == Lookup(entries, other)
  {
    if Lookup(entries, userId).Some? {
      LookupMapWhere(entries, userId, online, other);
    } else {
      LookupAppend(entries, Entry(userId, online), other);
    }
  }

  /** Setting the flags of one user rewrites that user's entries and no key. */
  lemma {:induction false} LookupMapWhere(entries: seq<Entry>, userId: string, online: bool, k: string)
    ensures Lookup(MapWhere(entries, IsUser(userId), WithOnline(online)), k) ==
              if k == userId && Lookup(entries, k).Some? then Some(online) else Lookup(entries, k)
    decreases |entries|
  {
    if entries != [] {
      var r := MapWhere(entries, IsUser(userId), WithOnline(online));
      assert r[1..] == MapWhere(entries[1..], IsUser(userId), WithOnline(online));
      LookupMapWhere(entries[1..], userId, online, k);
    }
  }

  /** An entry added at the end is found only when the key was absent. */
  lemma {:induction false} LookupAppend(entries: seq<Entry>, e: Entry, k: string)
    ensures Lookup(entries + [e], k) ==
              if Lookup(entries, k).Some? then Lookup(entries, k)
              else if e.userId == k then Some(e.online) else None
    decreases |entries|
  {
    if entries != [] {
      assert (entries + [e])[1..] == entries[1..] + [e];
      LookupAppend(entries[1..], e, k);
    } else {
      assert ([] + [e])[1..] == [];
    }
  }

  /** The last update for a user wins: two updates in a row give the record
      the second one alone gives; in particular a repeated update changes
      nothing. */
  lemma PresenceLastWins(entries: seq<Entry>, userId: string, first: bool, second: bool)
    ensures PresenceUpdate(PresenceUpdate(entries, userId, first), userId, second) ==
              PresenceUpdate(entries, userId, second)
  {
    PresenceUpdateStores(entries, userId, first);
    if Lookup(entries, userId).Some? {
      SetOnlineTwice(entries, userId, first, second);
    } else {
      SetOnlineAfterAppend(entries, userId, first, second);
    }
  }

  lemma SetOnlineTwice(entries: seq<Entry>, userId: string, first: bool, second: bool)
    ensures MapWhere(MapWhere(entries, IsUser(userId), WithOnline(first)), IsUser(userId), WithOnline(second)) ==
              MapWhere(entries, IsUser(userId), WithOnline(second))
  {
    var once := MapWhere(entries, IsUser(userId), WithOnline(first));
    var twice := MapWhere(once, IsUser(userId), WithOnline(second));
    var direct := MapWhere(entries, IsUser(userId), WithOnline(second));
    forall i | 0 <= i < |entries| ensures twice[i] == direct[i] {
      assert once[i].userId == entries[i].userId;
    }
  }

  lemma SetOnlineAfterAppend(entries: seq<Entry>, userId: string, first: bool, second: bool)
    requires forall i :: 0 <= i < |entries| ==> entries[i].userId != userId
    ensures MapWhere(entries + [Entry(userId, first)], IsUser(userId), WithOnline(second)) ==
              entries + [Entry(userId, second)]
  {
    var once := entries + [Entry(userId, first)];
    var twice := MapWhere(once, IsUser(userId), WithOnline(second));
    var direct := entries + [Entry(userId, second)];
    forall i | 0 <= i < |once| ensures twice[i] == direct[i] {
      if i < |entries| {
        assert once[i] == entries[i];
      }
    }
  }

  /** Updates keep one entry per key, so the panel shows each user once. */
  lemma PresenceKeepsKeysDistinct(entries: seq<Entry>, userId: string, online: bool)
    requires NoDuplicates(Keys(entries))
    ensures NoDuplicates(Keys(PresenceUpdate(entries, userId, online)))
  {
    if Lookup(entries, userId).None? {
      var keys := Keys(entries) + [userId];
      forall i, j | 0 <= i < j < |keys| ensures keys[i] != keys[j] {
        if j == |keys| - 1 {
          assert keys[i] == entries[i].userId;
        }
      }
    }
  }

  /** What the panel renders: "No active users" for an empty record, otherwise
      one row per entry with its presence dot. A record holding only offline
      users still renders their rows. */
  datatype Panel = NoActiveUsers | Rows(rows: seq<Entry>)

  function Render(entries: seq<Entry>): (p: Panel)
    ensures p.NoActiveUsers? <==> |entries| == 0
    ensures p.Rows? ==> p.rows == entries
  {
    if |entries| == 0 then NoActiveUsers else Rows(entries)
  }

  class OnlineUserList {
    var users: seq<Entry>
    /** Whether the "presence_update" handler is registered. */
    var listening: bool

    ghost predicate Valid()
      reads this
    {
      NoDuplicates(Keys(users))
    }

    constructor ()
      ensures Valid() && users == [] && !listening
    {
      users := [];
      listening := false;
    }

    /** The effect: the handler is registered only with a socket that is
        connected. */
    method SetConnection(hasSocket: bool, isConnected: bool)
      modifies this`listening
      ensures listening <==> hasSocket && isConnected
    {
      listening := hasSocket && isConnected;
    }

    /** A "presence_update" event: stored while listening, ignored otherwise. */
    method OnPresenceUpdate(userId: string, online: bool)
      requires Valid()
      modifies this`users
      ensures Valid()
      ensures users == if listening then PresenceUpdate(old(users), userId, online) else old(users)
    {
      if listening {
        PresenceKeepsKeysDistinct(users, userId, online);
        users := PresenceUpdate(users, userId, online);
      }
    }
  }
}

/** The list of users currently typing in a room, shared by the message input
    and the room hook: a name is added once, and removed on a stop event or
    when its expiry fires. */
module Typing {
  import opened Lists

  /** `prev.includes(username) ? prev : [...prev, username]`. */
  function AddTypist(list: seq<string>, name: string): (r: seq<string>)
    ensures name in r
    ensures name in list ==> r == list
    ensures name !in list ==> r == list + [name]
    ensures NoDuplicates(list) ==> NoDuplicates(r)
  {
    if name in list then list else list + [name]
  }

  /** `prev.filter(u => u !== username)`. */
  function RemoveTypist(list: seq<string>, name: string): (r: seq<string>)
    ensures name !in r
    ensures forall i :: 0 <= i < |list| && list[i] != name ==> list[i] in r
    ensures forall x :: multiset(r)[x] == if x != name then multiset(list)[x] else 0
    ensures IsSubseq(r, list)
  {
    FilterMultiset(list, (u: string) => u != name);
    Filter(list, (u: string) => u != name)
  }

  /** Removing a name that is not there changes nothing. */
  lemma RemoveAbsentIsNoop(list: seq<string>, name: string)
    requires name !in list
    ensures RemoveTypist(list, name) == list
  {
    FilterKeepsAll(list, (u: string) => u != name);
  }

  /** Removing keeps the list free of duplicates. */
  lemma RemoveKeepsNoDuplicates(list: seq<string>, name: string)
    requires NoDuplicates(list)
    ensures NoDuplicates(RemoveTypist(list, name))
  {
    SubseqNoDuplicates(RemoveTypist(list, name), list);
  }

  /** The events that change the list: someone typing, someone stopping, and
      the expiry timer of an earlier typing event firing. */
  datatype TypingEvent = StartedTyping(name: string) | StoppedTyping(name: string) | ExpiryFired(name: string)

  function ApplyTypingEvent(list: seq<string>, e: TypingEvent): (r: seq<string>)
    ensures e.StartedTyping? ==> e.name in r
    ensures !e.StartedTyping? ==> e.name !in r
  {
    match e
    case StartedTyping(n) => AddTypist(list, n)
    case StoppedTyping(n) => RemoveTypist(list, n)
    case ExpiryFired(n) => RemoveTypist(list, n)
  }

  function ApplyTypingEvents(list: seq<string>, events: seq<TypingEvent>): seq<string>
    decreases |events|
  {
    if events == [] then list else ApplyTypingEvents(ApplyTypingEvent(list, events[0]), events[1..])
  }

  /** Starting from a list without duplicates, no sequence of typing, stop and
      expiry events ever lists a name twice. */
  lemma {:induction false} EventsKeepNoDuplicates(list: seq<string>, events: seq<TypingEvent>)
    requires NoDuplicates(list)
    ensures NoDuplicates(ApplyTypingEvents(list, events))
    decreases |events|
  {
    if events != [] {
      var next := ApplyTypingEvent(list, events[0]);
      if !events[0].StartedTyping? {
        RemoveKeepsNoDuplicates(list, events[0].name);
      }
      EventsKeepNoDuplicates(next, events[1..]);
    }
  }
}

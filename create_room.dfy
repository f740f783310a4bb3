/** The modal that creates a room: the name is required, the payload is
    trimmed, and a created room resets the form and closes the modal. */
module CreateRoom {
  import opened Common
  import opened Strings

  const NameRequired := "Room name is required"
  const CreateRoomFallback := "Failed to create room"

  /** The `createRoom` argument; an absent description is `undefined`. */
  datatype RoomPayload = RoomPayload(name: string, description: Option<string>, isPrivate: bool)

  /** The payload built from the form: the trimmed name, the trimmed
      description or nothing when it is blank, and the privacy flag as set. */
  function BuildPayload(name: string, description: string, isPrivate: bool): (p: RoomPayload)
    ensures p.name == Trim(name) && p.isPrivate == isPrivate
    ensures p.description.Some? <==> !AllWhitespace(description)
    ensures p.description.Some? ==> p.description.value == Trim(description)
  {
    TrimEmptyIff(description);
    var d := Trim(description);
    RoomPayload(Trim(name), if d != "" then Some(d) else None, isPrivate)
  }

  /** `!name.trim()`: the name is blank, that is, whitespace only. */
  predicate NameMissing(name: string) {
    Trim(name) == ""
  }

  lemma NameMissingIff(name: string)
    ensures NameMissing(name) <==> AllWhitespace(name)
  {
    TrimEmptyIff(name);
  }

  /** A payload that passes the name check carries a name that is not blank
      and has no surrounding whitespace. */
  lemma PayloadNameNotBlank(name: string, description: string, isPrivate: bool)
    requires !NameMissing(name)
    ensures var n := BuildPayload(name, description, isPrivate).name;
            n != "" && !IsWhitespace(n[0]) && !IsWhitespace(n[|n| - 1]) && Trim(n) == n
  {
    TrimIdempotent(name);
  }

  class CreateRoomForm {
    var name: string
    var description: string
    var isPrivate: bool
    var error: Option<string>

    constructor ()
      ensures Holds("", "", false) && error.None?
    {
      name := "";
      description := "";
      isPrivate := false;
      error := None;
    }

    /** The three fields hold the given values. */
    predicate Holds(n: string, d: string, p: bool)
      reads this
    {
      name == n && description == d && isPrivate == p
    }

    method Edit(n: string, d: string, p: bool)
      modifies this`name, this`description, this`isPrivate
      ensures Holds(n, d, p)
    {
      name := n;
      description := d;
      isPrivate := p;
    }

    /** `handleSubmit`, with the mutation's outcome as a parameter. A blank
        name sends nothing; a created room resets the form and closes the
        modal; a failure shows the server's message or the fallback and keeps
        the form. */
    method Submit(outcome: MutationOutcome) returns (request: Option<RoomPayload>, closed: bool)
      modifies this
      ensures request.None? <==> NameMissing(old(name))
      ensures request.None? ==> error == Some(NameRequired) && !closed
      ensures request.None? ==> unchanged(this`name, this`description, this`isPrivate)
      ensures request.Some? ==> request.value == BuildPayload(old(name), old(description), old(isPrivate))
      ensures request.Some? && outcome.Fulfilled? ==>
                closed && error.None? && Holds("", "", false)
      ensures request.Some? && outcome.Rejected? ==>
                !closed && error == Some(MutationErrorText(outcome, CreateRoomFallback)) &&
                Holds(old(name), old(description), old(isPrivate))
    {
      var payload := BuildPayload(name, description, isPrivate);
      if payload.name == "" {
        error := Some(NameRequired);
        return None, false;
      }
      request := Some(payload);
      closed := Settle(outcome);
    }

    /** The end of a sent request: a created room resets the form and closes
        the modal; a failure shows the server's message or the fallback. */
    method Settle(outcome: MutationOutcome) returns (closed: bool)
      modifies this
      ensures closed <==> outcome.Fulfilled?
      ensures outcome.Fulfilled? ==> error.None? && Holds("", "", false)
      ensures outcome.Rejected? ==>
                error == Some(MutationErrorText(outcome, CreateRoomFallback)) &&
                Holds(old(name), old(description), old(isPrivate))
    {
      if outcome.Fulfilled? {
        name := "";
        description := "";
        isPrivate := false;
        error := None;
        closed := true;
      } else {
        error := Some(MutationErrorText(outcome, CreateRoomFallback));
        closed := false;
      }
    }
  }

  /** What the modal shows: nothing while closed, the form otherwise. */
  datatype ModalView = ModalView(name: string, description: string, isPrivate: bool, error: Option<string>)

  function Render(isOpen: bool, name: string, description: string, isPrivate: bool, error: Option<string>)
    : (v: Option<ModalView>)
    ensures v.None? <==> !isOpen
    ensures v.Some? ==> v.value == ModalView(name, description, isPrivate, error)
  {
    if !isOpen then None else Some(ModalView(name, description, isPrivate, error))
  }
}

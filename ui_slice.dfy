/** The UI slice of the Redux store: which room is open. */
module UiSlice {
  import opened Common

  class UiStore {
    var activeRoomId: Option<string>

    /** The slice starts with no room open. */
    constructor ()
      ensures activeRoomId.None?
    {
      activeRoomId := None;
    }

    /** `setActiveRoomId(payload)`: the payload, `null` included, becomes the
        value whatever the value was before; so a repeated payload changes
        nothing and of two writes the last one wins. */
    method SetActiveRoomId(payload: Option<string>)
      modifies this
      ensures activeRoomId == payload
    {
      activeRoomId := payload;
    }
  }
}

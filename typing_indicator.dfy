/** The line under the message list that says who is typing in the room. */
module TypingIndicator {
  import opened Common
  import opened Strings

  /** The indicator's text for the room's typists: nothing when nobody is
      typing, otherwise the names joined by ", ", the verb and "typing…". */
  function IndicatorText(typingUsers: seq<string>): (r: Option<string>)
    ensures r.None? <==> typingUsers == []
    ensures |typingUsers| == 1 ==> r == Some(typingUsers[0] + " is typing…")
    ensures |typingUsers| >= 2 ==> r == Some(Join(typingUsers, ", ") + " are typing…")
  {
    if |typingUsers| == 0 then None
    else
      var verb := if |typingUsers| == 1 then " is typing…" else " are typing…";
      Some(Join(typingUsers, ", ") + verb)
  }

  /** The names keep the order in which the users started typing: one more
      typist adds ", " and that name after the names already shown. */
  lemma IndicatorListsInOrder(typingUsers: seq<string>, u: string)
    requires |typingUsers| >= 1
    ensures IndicatorText(typingUsers + [u]) == Some(Join(typingUsers, ", ") + ", " + u + " are typing…")
  {
    JoinSnoc(typingUsers, u, ", ");
  }
}

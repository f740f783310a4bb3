/** The message composer: the typing signal sent to the room (debounced by a
    2000 ms timer), the typing list shown above the input, the attachment
    size limit, and submission with an optional upload. */
module MessageInput {
  import opened Common
  import opened Strings
  import opened Lists
  import opened Typing

  const TypingIdleMs := 2000
  const MaxAttachmentBytes := 10 * 1024 * 1024

  /** What the composer emits on the socket. */
  datatype TypingEmit = TypingStart(roomId: string) | TypingStop(roomId: string)

  /** An uploaded attachment, as the upload endpoint returns it. */
  datatype Attachment = Attachment(url: string, fileName: string)

  /** How the upload ended: a response (whose `data.attachment` may be
      missing) or a failure (non-ok response or thrown error). */
  datatype UploadOutcome = Uploaded(attachment: Option<Attachment>) | UploadFailed

  /** The `sendMessage` payload. */
  datatype SendRequest = SendRequest(roomId: string, content: string, attachment: Option<Attachment>)

  /** `handleFileSelect`'s limit: more than 10 MiB is refused, exactly 10 MiB
      is accepted. */
  predicate AttachmentTooLarge(file: FileInfo) {
    file.size > MaxAttachmentBytes
  }

  /** The submit guard: an empty (after trimming) message without a file, or
      a send or upload already running, submits nothing. */
  predicate CanSubmit(message: string, file: Option<FileInfo>, isSending: bool, isUploading: bool) {
    !((Trim(message) == "" && file.None?) || isSending || isUploading)
  }

  /** `message.trim() || (selectedFile ? "Sent " + name : "")`. */
  function SentContent(message: string, file: Option<FileInfo>): (r: string)
    ensures Trim(message) != "" ==> r == Trim(message)
    ensures Trim(message) == "" && file.Some? ==> r == "Sent " + file.value.name
    ensures Trim(message) == "" && file.None? ==> r == ""
  {
    OrElse(Some(Trim(message)), if file.Some? then "Sent " + file.value.name else "")
  }

  /** Whatever passes the submit guard is sent with non-blank content. */
  lemma SubmittedContentNotEmpty(message: string, file: Option<FileInfo>, isSending: bool, isUploading: bool)
    requires CanSubmit(message, file, isSending, isUploading)
    ensures SentContent(message, file) != ""
    ensures Trim(SentContent(message, file)) == SentContent(message, file) || file.Some?
  {
    if Trim(message) != "" {
      TrimIdempotent(message);
    }
  }

  /** The label above the input: "<name> is typing..." for one typist,
      "<n> people are typing..." for more; nothing for none. */
  function TypingLabel(users: seq<string>): (r: Option<string>)
    ensures r.None? <==> users == []
    ensures |users| == 1 ==> r == Some(users[0] + " is typing...")
    ensures |users| > 1 ==> r == Some(NatToString(|users|) + " people are typing...")
  {
    if |users| == 0 then None
    else if |users| == 1 then Some(users[0] + " is typing...")
    else Some(NatToString(|users|) + " people are typing...")
  }

  /** With several typists the label begins with their number in decimal. */
  lemma TypingLabelCounts(users: seq<string>)
    requires |users| > 1
    ensures var text := TypingLabel(users).value;
            var digits := NatToString(|users|);
            text[..|digits|] == digits && ParseDigits(digits) == |users|
  {
    NatToStringRoundTrip(|users|);
  }

  class MessageComposer {
    const roomId: string
    var message: string
    var isTyping: bool
    var typingUsers: seq<string>
    var selectedFile: Option<FileInfo>
    var isUploading: bool
    /** The typing timer in `typingTimeoutRef`, if one is pending. */
    var pendingTimer: Option<nat>
    var nextTimer: nat
    var emitted: seq<TypingEmit>
    /** Whether the typing-list handlers are registered. */
    var listening: bool

    ghost predicate Valid()
      reads this
    {
      && NoDuplicates(typingUsers)
      && (pendingTimer.Some? ==> pendingTimer.value < nextTimer)
    }

    constructor (room: string)
      ensures Valid()
      ensures roomId == room && message == "" && !isTyping && typingUsers == []
      ensures selectedFile.None? && !isUploading && pendingTimer.None? && emitted == [] && !listening
    {
      roomId := room;
      message := "";
      isTyping := false;
      typingUsers := [];
      selectedFile := None;
      isUploading := false;
      pendingTimer := None;
      nextTimer := 0;
      emitted := [];
      listening := false;
    }

    method SetConnection(hasSocket: bool, connected: bool)
      modifies this`listening
      ensures listening == (hasSocket && connected)
    {
      listening := hasSocket && connected;
    }

    /** A typing-list event while listening: "user:typing" adds the name if
        absent, "user:stopped-typing" removes it. */
    method OnTypingEvent(e: TypingEvent)
      requires Valid()
      requires !e.ExpiryFired?
      modifies this`typingUsers
      ensures Valid()
      ensures typingUsers == if old(listening) then ApplyTypingEvent(old(typingUsers), e) else old(typingUsers)
    {
      if listening {
        if e.StoppedTyping? {
          RemoveKeepsNoDuplicates(typingUsers, e.name);
        }
        typingUsers := ApplyTypingEvent(typingUsers, e);
      }
    }

    /** `handleMessageChange`: store the text, then `handleTyping`. Without a
        connected socket nothing else happens; otherwise "typing:start" is sent
        only when not already typing, and the pending timer is replaced by a
        fresh one. */
    method OnMessageChange(text: string, connected: bool)
      requires Valid()
      modifies this`message, this`isTyping, this`pendingTimer, this`nextTimer, this`emitted
      ensures Valid()
      ensures message == text
      ensures !connected ==>
                isTyping == old(isTyping) && pendingTimer == old(pendingTimer) && emitted == old(emitted)
      ensures connected ==>
                && isTyping
                && emitted == old(emitted) + (if old(isTyping) then [] else [TypingStart(roomId)])
                && pendingTimer == Some(old(nextTimer))
                && nextTimer == old(nextTimer) + 1
    {
      message := text;
      if !connected {
        return;
      }
      if !isTyping {
        emitted := emitted + [TypingStart(roomId)];
        isTyping := true;
      }
      pendingTimer := Some(nextTimer);
      nextTimer := nextTimer + 1;
    }

    /** Timer `t` fires. Only the pending one is still scheduled: it sends
        "typing:stop" and clears `isTyping`. A replaced timer was cancelled. */
    method OnTypingTimer(t: nat)
      requires Valid()
      modifies this`isTyping, this`pendingTimer, this`emitted
      ensures Valid()
      ensures old(pendingTimer) == Some(t) ==>
                !isTyping && pendingTimer.None? && emitted == old(emitted) + [TypingStop(roomId)]
      ensures old(pendingTimer) != Some(t) ==>
                isTyping == old(isTyping) && pendingTimer == old(pendingTimer) && emitted == old(emitted)
    {
      if pendingTimer == Some(t) {
        emitted := emitted + [TypingStop(roomId)];
        isTyping := false;
        pendingTimer := None;
      }
    }

    /** `handleFileSelect`: no file changes nothing; a file over the limit is
        refused with a notice; any other file is selected. */
    method SelectFile(file: Option<FileInfo>) returns (notice: Option<string>)
      modifies this`selectedFile
      ensures file.None? ==> selectedFile == old(selectedFile) && notice.None?
      ensures file.Some? && AttachmentTooLarge(file.value) ==>
                selectedFile == old(selectedFile) && notice == Some("File size must be less than 10MB")
      ensures file.Some? && !AttachmentTooLarge(file.value) ==> selectedFile == file && notice.None?
    {
      notice := None;
      if file.None? {
        return;
      }
      if file.value.size > 10 * 1024 * 1024 {
        notice := Some("File size must be less than 10MB");
        return;
      }
      selectedFile := file;
    }

    /** `handleSubmit`, with the upload and the send answered by `upload` and
        `send`. Past the guard, a running typing signal is stopped; a selected
        file is uploaded first, and a failed upload (with a notice) or a
        missing attachment (silently) ends the submission; then the message is
        sent, and success clears the text and the file while failure keeps
        them and shows a notice. */
    method Submit(isSending: bool, connected: bool, upload: UploadOutcome, send: MutationOutcome)
      returns (request: Option<SendRequest>, notice: Option<string>)
      requires Valid()
      modifies this`message, this`selectedFile, this`isTyping, this`emitted
      ensures Valid()
      ensures !CanSubmit(old(message), old(selectedFile), isSending, old(isUploading)) ==>
                request.None? && notice.None? && message == old(message) &&
                selectedFile == old(selectedFile) && isTyping == old(isTyping) && emitted == old(emitted)
      ensures CanSubmit(old(message), old(selectedFile), isSending, old(isUploading)) ==>
                && emitted == old(emitted) + (if connected && old(isTyping) then [TypingStop(roomId)] else [])
                && isTyping == (old(isTyping) && !connected)
      ensures request.Some? ==>
                && CanSubmit(old(message), old(selectedFile), isSending, old(isUploading))
                && request.value.roomId == roomId
                && request.value.content == SentContent(old(message), old(selectedFile))
                && (old(selectedFile).Some? <==> request.value.attachment.Some?)
      ensures CanSubmit(old(message), old(selectedFile), isSending, old(isUploading)) &&
              old(selectedFile).Some? && upload.UploadFailed? ==>
                request.None? && notice == Some("Failed to upload file")
      ensures request.Some? && send.Fulfilled? ==> message == "" && selectedFile.None? && notice.None?
      ensures request.Some? && send.Rejected? ==>
                message == old(message) && selectedFile == old(selectedFile) && notice == Some("Failed to send message")
      ensures request.None? ==> message == old(message) && selectedFile == old(selectedFile)
      ensures CanSubmit(old(message), old(selectedFile), isSending, old(isUploading)) &&
              (old(selectedFile).None? || (upload.Uploaded? && upload.attachment.Some?)) ==>
                request == Some(SendRequest(roomId, SentContent(old(message), old(selectedFile)),
                                            if old(selectedFile).Some? then upload.attachment else None))
      ensures old(selectedFile).Some? && upload.Uploaded? && upload.attachment.None? ==>
                request.None? && notice.None?
    {
      request, notice := None, None;
      if !CanSubmit(message, selectedFile, isSending, isUploading) {
        return;
      }
      if connected && isTyping {
        emitted := emitted + [TypingStop(roomId)];
        isTyping := false;
      }
      var attachment: Option<Attachment> := None;
      if selectedFile.Some? {
        if upload.UploadFailed? {
          notice := Some("Failed to upload file");
          return;
        }
        if upload.attachment.None? {
          return;
        }
        attachment := upload.attachment;
      }
      request := Some(SendRequest(roomId, SentContent(message, selectedFile), attachment));
      if send.Fulfilled? {
        message := "";
        selectedFile := None;
      } else {
        notice := Some("Failed to send message");
      }
    }
  }
}

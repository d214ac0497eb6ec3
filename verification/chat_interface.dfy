/** The consultation chat (src/components/chat/ChatInterface.js): sending a
    message with its attachments, the doctor's simulated replies, and the
    limits on selected files.

    Timers become methods the caller invokes when they fire; the current time
    and its ISO text are parameters. */
module ChatInterface {
  import opened Common

  datatype FileInfo = FileInfo(name: string, size: nat)

  datatype ChatMessage = ChatMessage(id: string, text: string, timestamp: string, senderName: string,
                                     kind: string, attachments: seq<FileInfo>)

  const MaxFiles: nat := 3
  const MaxTotalSize: nat := 5 * 1024 * 1024
  const TooManyFiles: string := "Too many files"
  const TooLarge: string := "Files too large"
  const DoctorReplyText: string := "I understand. Let me review that information..."

  /** `files.reduce((acc, file) => acc + file.size, 0)`. */
  function TotalSize(files: seq<FileInfo>): nat
  {
    if files == [] then 0 else files[0].size + TotalSize(files[1..])
  }

  /** The total of two selections is the sum of their totals. */
  lemma {:induction false} TotalSizeAppend(a: seq<FileInfo>, b: seq<FileInfo>)
    ensures TotalSize(a + b) == TotalSize(a) + TotalSize(b)
  {
    if a == [] {
      assert a + b == b;
    } else {
      assert (a + b)[1..] == a[1..] + b;
      TotalSizeAppend(a[1..], b);
    }
  }

  /** Every single file counts toward the total. */
  lemma {:induction false} TotalSizeBoundsEach(files: seq<FileInfo>, i: nat)
    requires i < |files|
    ensures files[i].size <= TotalSize(files)
  {
    if i > 0 {
      TotalSizeBoundsEach(files[1..], i - 1);
    }
  }

  /** The file checks, count first: the refusal, if any. */
  function CheckFiles(files: seq<FileInfo>): (r: Option<string>)
    ensures r.None? <==> |files| <= MaxFiles && TotalSize(files) <= MaxTotalSize
    ensures |files| > MaxFiles ==> r == Some(TooManyFiles)
  {
    if |files| > MaxFiles then Some(TooManyFiles)
    else if TotalSize(files) > MaxTotalSize then Some(TooLarge)
    else None
  }

  /** An accepted selection has no file above the size limit. */
  lemma AcceptedFilesAreSmall(files: seq<FileInfo>, i: nat)
    requires CheckFiles(files).None? && i < |files|
    ensures files[i].size <= MaxTotalSize
  {
    TotalSizeBoundsEach(files, i);
  }

  class Session {
    const userName: string
    const doctorName: string
    var messages: seq<ChatMessage>
    var newMessage: string
    var attachments: seq<FileInfo>
    var isTyping: bool

    constructor (userName: string, doctorName: string, timestamp: string)
      ensures this.userName == userName && this.doctorName == doctorName
      ensures |messages| == 1 && messages[0].kind == "system"
      ensures newMessage == "" && attachments == [] && !isTyping
    {
      this.userName := userName;
      this.doctorName := doctorName;
      messages := [ChatMessage("1", "Welcome to your consultation with " + doctorName + ". The doctor will join shortly.",
                               timestamp, "System", "system", [])];
      newMessage := "";
      attachments := [];
      isTyping := false;
    }

    /** The send button's disabled state, which is also the send guard. */
    predicate SendDisabled()
      reads this
    {
      Trim(newMessage) == "" && |attachments| == 0
    }

    /** `handleSendMessage` at time `now`: nothing happens when disabled;
        otherwise one user message with the trimmed text and a copy of the
        attachments is appended, the input and attachments are cleared, and
        the doctor starts typing. */
    method Send(now: nat, timestamp: string) returns (sent: bool)
      modifies this
      ensures sent <==> !old(SendDisabled())
      ensures !sent ==> messages == old(messages) && newMessage == old(newMessage)
                        && attachments == old(attachments) && isTyping == old(isTyping)
      ensures sent ==> messages == old(messages) + [ChatMessage(DecimalText(now), Trim(old(newMessage)), timestamp,
                                                                userName, "user", old(attachments))]
      ensures sent ==> newMessage == "" && attachments == [] && isTyping
    {
      if Trim(newMessage) == "" && |attachments| == 0 {
        return false;
      }
      var message := ChatMessage(DecimalText(now), Trim(newMessage), timestamp, userName, "user", attachments);
      messages := messages + [message];
      newMessage := "";
      attachments := [];
      isTyping := true;
      sent := true;
    }

    /** The doctor joining, two seconds after the chat opens. */
    method DoctorJoin(now: nat, timestamp: string)
      modifies this
      ensures messages == old(messages) + [ChatMessage(DecimalText(now), "Hi, I'm " + doctorName
                                           + ". I've reviewed your symptoms. How can I help you today?",
                                           timestamp, doctorName, "doctor", [])]
      ensures newMessage == old(newMessage) && attachments == old(attachments) && isTyping == old(isTyping)
    {
      messages := messages + [ChatMessage(DecimalText(now), "Hi, I'm " + doctorName
                                          + ". I've reviewed your symptoms. How can I help you today?",
                                          timestamp, doctorName, "doctor", [])];
    }

    /** The doctor's reply, when its timer fires. */
    method DoctorReply(now: nat, timestamp: string)
      modifies this
      ensures !isTyping
      ensures messages == old(messages) + [ChatMessage(DecimalText(now), DoctorReplyText, timestamp, doctorName, "doctor", [])]
      ensures newMessage == old(newMessage) && attachments == old(attachments)
    {
      isTyping := false;
      messages := messages + [ChatMessage(DecimalText(now), DoctorReplyText, timestamp, doctorName, "doctor", [])];
    }

    /** `handleFileSelect(files)`: the refusal (attachments unchanged), or the
        selection replaces the attachments. */
    method FileSelect(files: seq<FileInfo>) returns (refusal: Option<string>)
      modifies this
      ensures refusal == CheckFiles(files)
      ensures refusal.Some? ==> attachments == old(attachments)
      ensures refusal.None? ==> attachments == files
      ensures messages == old(messages) && newMessage == old(newMessage) && isTyping == old(isTyping)
    {
      if |files| > MaxFiles {
        return Some(TooManyFiles);
      }
      var total := TotalSize(files);
      if total > MaxTotalSize {
        return Some(TooLarge);
      }
      attachments := files;
      refusal := None;
    }
  }

  /** The guard refuses exactly a blank text with no attachments; white space
      alone does not count as text. */
  lemma GuardMeaning(text: string, attachments: seq<FileInfo>)
    ensures (Trim(text) == "" && |attachments| == 0) <==>
      (forall i :: 0 <= i < |text| ==> IsSpace(text[i])) && attachments == []
  {
    TrimEmpty(text);
  }
}

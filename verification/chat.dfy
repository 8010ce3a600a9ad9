/** `ChatInterface`: the conversational intake. The first message (or an
    uploaded document) becomes the description, the second the name, the
    third the audience, and the third also submits the session. */
module Chat {
  import opened Util
  import opened Text
  import Scoring

  /** `conversationStep`; `Complete` is declared by the source but never
      entered. */
  datatype ChatStep = Initial | Name | Audience | Complete

  function ChatStepRank(s: ChatStep): nat
  {
    match s
    case Initial => 0
    case Name => 1
    case Audience => 2
    case Complete => 3
  }

  /** The conversation's state: step, text box, busy flag and the fields
      gathered so far (`ideaData`). */
  datatype Chat = Chat(step: ChatStep, input: string, processing: bool, idea: Scoring.Idea)

  function StartChat(): (c: Chat)
    ensures c.step == Initial && c.input == "" && !c.processing
  {
    Chat(Initial, "", false, Scoring.Idea("", "", ""))
  }

  /** `handleSendMessage`: blank input or a busy conversation is ignored;
      otherwise the trimmed message fills the field of the current step,
      the step advances, the box is cleared and the busy flag dropped. In
      the audience step the message also yields the session request, built
      from the stored name and description and the message itself. */
  function Send(c: Chat): (r: (Chat, Option<Scoring.Idea>))
    ensures |Trim(c.input)| == 0 || c.processing ==> r == (c, None)
    ensures |Trim(c.input)| > 0 && !c.processing ==> r.0.input == "" && !r.0.processing
    ensures |Trim(c.input)| > 0 && !c.processing && c.step == Initial ==>
              r.0.step == Name && r.0.idea == c.idea.(description := Trim(c.input)) && r.1.None?
    ensures |Trim(c.input)| > 0 && !c.processing && c.step == Name ==>
              r.0.step == Audience && r.0.idea == c.idea.(name := Trim(c.input)) && r.1.None?
    ensures |Trim(c.input)| > 0 && !c.processing && c.step == Audience ==>
              r.0.step == Audience && r.0.idea == c.idea.(audience := Trim(c.input))
              && r.1 == Some(Scoring.Idea(c.idea.name, c.idea.description, Trim(c.input)))
    ensures r.0.step != Complete || c.step == Complete
  {
    if |Trim(c.input)| == 0 || c.processing then (c, None)
    else
      var message := Trim(c.input);
      var cleared := c.(input := "", processing := false);
      match c.step
      case Initial => (cleared.(step := Name, idea := c.idea.(description := message)), None)
      case Name => (cleared.(step := Audience, idea := c.idea.(name := message)), None)
      case Audience =>
        (cleared.(idea := c.idea.(audience := message)), Some(Scoring.Idea(c.idea.name, c.idea.description, message)))
      case Complete => (cleared, None)
  }

  /** What the file picker and the reader deliver: no file chosen, a file
      whose read fails, or the file's text. */
  datatype FileRead = NoFile | ReadFailed | Read(text: string)

  /** `handleFileUpload`: without a file nothing happens. Otherwise the
      busy flag is raised; once the text is read it becomes the whole
      description, the conversation moves on to the name and the flag is
      dropped. The reader has no error handler, so when the read fails the
      flag stays raised and nothing else changes. */
  function Upload(c: Chat, file: FileRead): (r: Chat)
    ensures file.NoFile? ==> r == c
    ensures file.ReadFailed? ==> r == c.(processing := true)
    ensures file.Read? ==> r.idea == c.idea.(description := file.text) && r.step == Name && !r.processing
    ensures r.input == c.input
  {
    match file
    case NoFile => c
    case ReadFailed => c.(processing := true)
    case Read(text) => c.(idea := c.idea.(description := text), step := Name, processing := false)
  }

  /** The upload button is live only at the start and while idle. */
  predicate UploadEnabled(c: Chat)
  {
    c.step == Initial && !c.processing
  }

  /** The send button is greyed out for blank input or while busy. */
  predicate SendDisabled(c: Chat)
  {
    |Trim(c.input)| == 0 || c.processing
  }

  /** A disabled send button coincides with a send that does nothing. */
  lemma SendDisabledIffIgnored(c: Chat)
    ensures SendDisabled(c) ==> Send(c) == (c, None)
    ensures !SendDisabled(c) ==> Send(c).0.input == "" && Send(c).0 != c
  {
    if !SendDisabled(c) {
      assert |c.input| > 0;
    }
  }

  datatype ChatEvent = Typed(text: string) | Sent | Uploaded(file: FileRead)

  /** One event under the component's guards: the text box, the send
      button and the upload button are each disabled while busy. */
  function ChatTransition(c: Chat, e: ChatEvent): (r: (Chat, Option<Scoring.Idea>))
  {
    match e
    case Typed(text) => if c.processing then (c, None) else (c.(input := text), None)
    case Sent => if SendDisabled(c) then (c, None) else Send(c)
    case Uploaded(file) => if UploadEnabled(c) then (Upload(c, file), None) else (c, None)
  }

  function RunChat(c: Chat, events: seq<ChatEvent>): Chat
    decreases |events|
  {
    if |events| == 0 then c else RunChat(ChatTransition(c, events[0]).0, events[1..])
  }

  /** Under the guards the step only moves forward and never reaches
      `Complete`. */
  lemma {:induction false} ChatNeverCompletes(c: Chat, events: seq<ChatEvent>)
    requires c.step != Complete
    ensures RunChat(c, events).step != Complete
    ensures ChatStepRank(RunChat(c, events).step) >= ChatStepRank(c.step)
    decreases |events|
  {
    if |events| > 0 {
      ChatNeverCompletes(ChatTransition(c, events[0]).0, events[1..]);
    }
  }

  /** A request is produced only from the audience step, and it carries the
      trimmed message as the audience. */
  lemma RequestOnlyFromAudience(c: Chat, e: ChatEvent)
    requires ChatTransition(c, e).1.Some?
    ensures c.step == Audience && e == Sent
    ensures ChatTransition(c, e).1.value.audience == Trim(c.input)
    ensures ChatTransition(c, e).1.value.name == c.idea.name && ChatTransition(c, e).1.value.description == c.idea.description
  {
  }

  /** The three-message conversation from the start: the request carries
      the second message as name, the first as description and the third
      as audience, each trimmed. */
  lemma ThreeMessagesMakeRequest(a: string, b: string, d: string)
    requires |Trim(a)| > 0 && |Trim(b)| > 0 && |Trim(d)| > 0
    ensures var c1 := ChatTransition(ChatTransition(StartChat(), Typed(a)).0, Sent).0;
            var c2 := ChatTransition(ChatTransition(c1, Typed(b)).0, Sent).0;
            ChatTransition(ChatTransition(c2, Typed(d)).0, Sent).1 == Some(Scoring.Idea(Trim(b), Trim(a), Trim(d)))
  {
  }

  /** A failed read leaves the conversation busy for good: the text box,
      the send button and the upload button are all disabled, so no event
      changes anything again. */
  lemma {:induction false} FailedReadStallsChat(c: Chat, events: seq<ChatEvent>)
    requires c.processing
    ensures RunChat(c, events) == c
    decreases |events|
  {
    if |events| > 0 {
      assert ChatTransition(c, events[0]).0 == c;
      FailedReadStallsChat(c, events[1..]);
    }
  }

  /** From a fresh conversation, a failed upload means no message is ever
      taken in. */
  lemma FailedUploadStallsFreshChat(events: seq<ChatEvent>)
    ensures var c := ChatTransition(StartChat(), Uploaded(ReadFailed)).0;
            RunChat(c, events) == c && c.step == Initial && c.processing && c.idea == StartChat().idea
  {
    FailedReadStallsChat(ChatTransition(StartChat(), Uploaded(ReadFailed)).0, events);
  }

  /** The upload path from a fresh conversation: the document's text,
      untrimmed, is the description, and the next two messages give the
      name and the audience. */
  lemma UploadThenTwoMessagesMakeRequest(doc: string, b: string, d: string)
    requires |Trim(b)| > 0 && |Trim(d)| > 0
    ensures var c1 := ChatTransition(StartChat(), Uploaded(Read(doc))).0;
            var c2 := ChatTransition(ChatTransition(c1, Typed(b)).0, Sent).0;
            ChatTransition(ChatTransition(c2, Typed(d)).0, Sent).1 == Some(Scoring.Idea(Trim(b), doc, Trim(d)))
  {
  }
}

/**
  The state of the chat page and what each of its handlers does to it, as
  functions on a `Session` value. Class `ChatPage.Page` holds the same four
  fields and its methods are proved to agree with these functions; module
  `Conversation` proves what whole sequences of events do.
 */
module Chat {
  import opened JsStrings

  datatype Option<T> = None | Some(value: T)

  datatype Role = User | Assistant

  /** A message body: the text, or `undefined` when a reply body has no `reply` field. */
  datatype Content = Text(text: string) | Undefined

  datatype Message = Message(role: Role, content: Content)

  /** The JSON body sent to the chat endpoint. */
  datatype Request = Request(message: string, history: seq<Message>)

  /** What `res.json()` yields: a parse error, JSON `null`, or any other value, whose `reply` property is a string or absent. */
  datatype Body = NotJson | JsonNull | JsonValue(reply: Option<string>)

  /** How the `fetch` of one request ends: rejected by the transport, or a response with a status and a body. */
  datatype Outcome = TransportError | Responded(status: int, body: Body)

  /** The page's component state: history, draft, busy flag and recording flag. */
  datatype Session = Session(messages: seq<Message>, input: string, isLoading: bool, isRecording: bool)

  const Initial := Session([], "", false, false)

  const ErrorText := "エラーが発生しました。時間をおいて再度お試しください。"

  const ErrorMessage := Message(Assistant, Text(ErrorText))

  /** `res.ok`: the status is in the 2xx range. */
  predicate IsOk(status: int): (ok: bool)
    ensures ok <==> status / 100 == 2
  {
    200 <= status <= 299
  }

  /**
    The content appended on the success path, or None when the request
    ends in the `catch` block: a transport error, a status outside 2xx, a
    body that is not JSON, or a JSON `null` (reading `.reply` of it throws).
   */
  function Reply(outcome: Outcome): (r: Option<Content>)
    ensures r.Some? <==> outcome.Responded? && IsOk(outcome.status) && outcome.body.JsonValue?
    ensures r.Some? ==> (r.value.Undefined? <==> outcome.body.reply.None?)
    ensures r.Some? && r.value.Text? ==> outcome.body.reply == Some(r.value.text)
  {
    match outcome
    case TransportError => None
    case Responded(status, body) =>
      if !IsOk(status) then None
      else
        match body
        case NotJson => None
        case JsonNull => None
        case JsonValue(reply) => Some(if reply.Some? then Text(reply.value) else Undefined)
  }

  /** The message the `try`/`catch` of `handleSubmit` appends for an outcome. */
  function AnswerFor(outcome: Outcome): (m: Message)
    ensures m.role == Assistant
    ensures !(outcome.Responded? && IsOk(outcome.status) && outcome.body.JsonValue?) ==> m == ErrorMessage
    ensures outcome.Responded? && IsOk(outcome.status) && outcome.body.JsonValue? ==>
      m.content == (if outcome.body.reply.Some? then Text(outcome.body.reply.value) else Undefined)
  {
    match Reply(outcome)
    case Some(content) => Message(Assistant, content)
    case None => ErrorMessage
  }

  /**
    The synchronous part of `handleSubmit`, up to the `fetch`: a blank draft
    or a request in flight leaves everything as it was and sends nothing;
    otherwise the untrimmed draft becomes a user message, the draft is
    cleared, the page turns busy, and the request carries the draft and the
    whole new history.
   */
  function StartSubmit(s: Session): (r: (Session, Option<Request>))
    ensures r.1.None? <==> IsBlank(s.input) || s.isLoading
    ensures r.1.None? ==> r.0 == s
    ensures r.1.Some? ==>
      var next, request := r.0, r.1.value;
      && next.messages == s.messages + [Message(User, Text(s.input))]
      && next.input == "" && next.isLoading && next.isRecording == s.isRecording
      && request.message == s.input
      && request.history == next.messages
  {
    if IsBlank(s.input) || s.isLoading then (s, None)
    else
      var userInput := s.input;
      var newMessages := s.messages + [Message(User, Text(userInput))];
      (s.(messages := newMessages, input := "", isLoading := true), Some(Request(userInput, newMessages)))
  }

  /**
    The rest of `handleSubmit`, once `fetch` has settled: the success path
    replaces the history by the captured request history plus the reply;
    the `catch` path appends the fixed error message to the current history;
    `finally` clears the busy flag. The draft and the recording flag are
    not touched.
   */
  function CompleteSubmit(s: Session, request: Request, outcome: Outcome): (r: Session)
    ensures !r.isLoading
    ensures r.input == s.input && r.isRecording == s.isRecording
    ensures |r.messages| > 0 && r.messages[|r.messages| - 1] == AnswerFor(outcome)
    ensures r.messages[..|r.messages| - 1] == if Reply(outcome).Some? then request.history else s.messages
  {
    var messages :=
      match Reply(outcome)
      case Some(content) => request.history + [Message(Assistant, content)]
      case None => s.messages + [ErrorMessage];
    assert messages[..|messages| - 1] == if Reply(outcome).Some? then request.history else s.messages;
    s.(messages := messages, isLoading := false)
  }

  /**
    `handleSubmit` run to its end with no other event in between: rejected,
    it changes nothing; accepted, it adds exactly the user message and one
    assistant message to the old history, and leaves the page idle with an
    empty draft.
   */
  function HandleSubmit(s: Session, outcome: Outcome): (r: (Session, Option<Request>))
    ensures r.1.None? <==> IsBlank(s.input) || s.isLoading
    ensures r.1.None? ==> r.0 == s
    ensures r.1.Some? ==>
      && r.0.messages == s.messages + [Message(User, Text(s.input)), AnswerFor(outcome)]
      && r.0.input == "" && !r.0.isLoading && r.0.isRecording == s.isRecording
      && r.1.value == Request(s.input, s.messages + [Message(User, Text(s.input))])
  {
    var (started, request) := StartSubmit(s);
    match request
    case None => (s, None)
    case Some(req) => (CompleteSubmit(started, req, outcome), request)
  }

  /** The textarea's `onChange`: the draft becomes the edited text. */
  function Edit(s: Session, text: string): (r: Session)
    ensures r.input == text
    ensures r.messages == s.messages && r.isLoading == s.isLoading && r.isRecording == s.isRecording
  {
    s.(input := text)
  }

  /** A key event as `handleKeyDown` reads it. */
  datatype KeyEvent = KeyEvent(key: string, shiftKey: bool, isComposing: bool)

  /** `handleKeyDown` submits (and suppresses the newline) on Enter without Shift outside an IME composition. */
  predicate SubmitsOn(e: KeyEvent): (submits: bool)
    ensures e.isComposing ==> !submits
    ensures e.shiftKey ==> !submits
    ensures submits ==> e.key == "Enter"
    ensures e.key == "Enter" && !e.shiftKey && !e.isComposing ==> submits
  {
    if e.isComposing then false
    else e.key == "Enter" && !e.shiftKey
  }

  /**
    The speech recogniser's `onresult`: the transcript is appended to the
    draft, after one space when the draft is non-empty. The old draft stays
    a prefix and the transcript ends the result.
   */
  function AppendTranscript(draft: string, transcript: string): (r: string)
    ensures draft <= r
    ensures |r| == |draft| + |transcript| + (if draft == "" then 0 else 1)
    ensures r[|r| - |transcript|..] == transcript
    ensures draft != "" ==> r[|draft|] == ' '
  {
    draft + (if draft != "" then " " else "") + transcript
  }

  function HearTranscript(s: Session, transcript: string): (r: Session)
    ensures r.input == AppendTranscript(s.input, transcript)
    ensures r.messages == s.messages && r.isLoading == s.isLoading && r.isRecording == s.isRecording
  {
    s.(input := AppendTranscript(s.input, transcript))
  }

  /** `startRecognition`: without a recognition engine nothing changes (the page only alerts); with one, recording starts. */
  function StartRecognition(s: Session, available: bool): (r: Session)
    ensures r.isRecording == (available || s.isRecording)
    ensures r.messages == s.messages && r.input == s.input && r.isLoading == s.isLoading
  {
    if !available then s else s.(isRecording := true)
  }

  /** The recogniser's `onend`: recording stops. */
  function EndRecognition(s: Session): (r: Session)
    ensures !r.isRecording
    ensures r.messages == s.messages && r.input == s.input && r.isLoading == s.isLoading
  {
    s.(isRecording := false)
  }

  /** `lastMessage`: the content of the newest message, or the empty string when there is none. */
  function LastMessage(messages: seq<Message>): (c: Content)
    ensures messages == [] ==> c == Text("")
    ensures messages != [] ==> c == messages[|messages| - 1].content
  {
    if |messages| > 0 then messages[|messages| - 1].content else Text("")
  }

  /** Whatever was appended last is what `lastMessage` reads, so the booking link follows every new turn. */
  lemma LastMessageAfterAppend(messages: seq<Message>, m: Message)
    ensures LastMessage(messages + [m]) == m.content
    ensures ShowBooking(messages + [m]) == KeywordTest(AsString(m.content))
  {
  }

  /** `String(x)` for a message body: `undefined` is converted to the text "undefined". */
  function AsString(c: Content): string {
    match c
    case Text(t) => t
    case Undefined => "undefined"
  }

  const HumanDock := "人間ドック"
  const Checkup := "健診"

  /** One of the two alternatives of the keyword pattern matches at index `i`. */
  predicate KeywordAt(text: string, i: nat) {
    OccursAt(text, HumanDock, i) || OccursAt(text, Checkup, i)
  }

  /** The regular-expression scan from index `i` onwards: true when some later index starts a keyword. */
  function SearchFrom(text: string, i: nat): (r: bool)
    requires i <= |text|
    ensures r <==> exists j: nat :: i <= j <= |text| && KeywordAt(text, j)
    decreases |text| - i
  {
    if KeywordAt(text, i) then true
    else if i == |text| then false
    else SearchFrom(text, i + 1)
  }

  /** `/(人間ドック|健診)/.test(text)`: the text contains one of the two keywords. */
  function KeywordTest(text: string): (r: bool)
    ensures r <==> Contains(text, HumanDock) || Contains(text, Checkup)
  {
    var r := SearchFrom(text, 0);
    assert r <== Contains(text, HumanDock) || Contains(text, Checkup) by {
      if Contains(text, HumanDock) {
        var i: nat :| i <= |text| && OccursAt(text, HumanDock, i);
        assert KeywordAt(text, i);
      } else if Contains(text, Checkup) {
        var i: nat :| i <= |text| && OccursAt(text, Checkup, i);
        assert KeywordAt(text, i);
      }
    }
    r
  }

  /**
    Whether the booking link is shown: the newest message, whichever its
    role, has a text containing 人間ドック or 健診. An empty history or an
    `undefined` body never shows it.
   */
  function ShowBooking(messages: seq<Message>): (r: bool)
    ensures r <==>
      && |messages| > 0
      && messages[|messages| - 1].content.Text?
      && (Contains(messages[|messages| - 1].content.text, HumanDock) ||
          Contains(messages[|messages| - 1].content.text, Checkup))
  {
    var last := LastMessage(messages);
    AsciiExcludes("undefined", HumanDock, 0);
    AsciiExcludes("undefined", Checkup, 0);
    KeywordTest(AsString(last))
  }
}

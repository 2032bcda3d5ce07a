/**
  Whole sessions of the chat page: the UI events the component reacts to,
  folded over the state together with the request still waiting for its
  response. The main result is the conversation invariant: user and
  assistant turns alternate, every user turn is a non-blank draft, the page
  is busy exactly when one request is in flight and its last message is the
  unanswered user turn, and history only ever grows.
 */
module Conversation {
  import opened JsStrings
  import opened Chat

  datatype Event =
    | Typed(text: string)          // textarea onChange
    | KeyPressed(key: KeyEvent)    // textarea onKeyDown
    | SendClicked                  // send button onClick
    | Settled(outcome: Outcome)    // the pending fetch resolves or rejects
    | MicClicked(available: bool)  // microphone button onClick
    | Heard(transcript: string)    // recogniser onresult
    | MicEnded                     // recogniser onend

  /** The component state and the request whose response has not arrived yet. */
  datatype PageWithRequest = PageWithRequest(session: Session, inFlight: Option<Request>)

  const Start := PageWithRequest(Initial, None)

  /** `handleSubmit` is called: an accepted submission puts its request in flight. */
  function Send(p: PageWithRequest): (r: PageWithRequest)
    ensures StartSubmit(p.session).1.None? ==> r == p
    ensures StartSubmit(p.session).1.Some? ==>
      && r.session == StartSubmit(p.session).0
      && r.inFlight == StartSubmit(p.session).1
      && r.session.isLoading
  {
    var (next, request) := StartSubmit(p.session);
    if request.Some? then PageWithRequest(next, request) else p
  }

  /** What one event does to the page. A response can only settle a request that is in flight. */
  function Step(p: PageWithRequest, e: Event): (r: PageWithRequest)
    ensures e.Typed? || e.MicClicked? || e.Heard? || e.MicEnded? ==>
      r.session.messages == p.session.messages && r.session.isLoading == p.session.isLoading && r.inFlight == p.inFlight
    ensures e.KeyPressed? && !SubmitsOn(e.key) ==> r == p
    ensures e.Settled? && p.inFlight.None? ==> r == p
    ensures e.Settled? && p.inFlight.Some? ==>
      && r.inFlight.None? && !r.session.isLoading
      && r.session.messages != [] && r.session.messages[|r.session.messages| - 1] == AnswerFor(e.outcome)
  {
    match e
    case Typed(text) => p.(session := Edit(p.session, text))
    case KeyPressed(key) => if SubmitsOn(key) then Send(p) else p
    case SendClicked => Send(p)
    case Settled(outcome) =>
      (match p.inFlight
       case None => p
       case Some(request) => PageWithRequest(CompleteSubmit(p.session, request, outcome), None))
    case MicClicked(available) => p.(session := StartRecognition(p.session, available))
    case Heard(transcript) => p.(session := HearTranscript(p.session, transcript))
    case MicEnded => p.(session := EndRecognition(p.session))
  }

  function Run(p: PageWithRequest, events: seq<Event>): PageWithRequest
    decreases |events|
  {
    if events == [] then p else Run(Step(p, events[0]), events[1..])
  }

  /** Even positions hold user turns, odd positions assistant turns. */
  predicate Alternating(messages: seq<Message>) {
    forall i :: 0 <= i < |messages| ==> (messages[i].role == User <==> i % 2 == 0)
  }

  /** Every user turn is a draft that passed the blank check. */
  predicate UserTurnsNonBlank(messages: seq<Message>) {
    forall i :: 0 <= i < |messages| && messages[i].role == User ==>
      messages[i].content.Text? && !IsBlank(messages[i].content.text)
  }

  predicate Consistent(p: PageWithRequest) {
    var s := p.session;
    && Alternating(s.messages)
    && UserTurnsNonBlank(s.messages)
    && (s.isLoading <==> p.inFlight.Some?)
    && (s.isLoading <==> |s.messages| % 2 == 1)
    && (p.inFlight.Some? ==>
          && p.inFlight.value.history == s.messages
          && s.messages[|s.messages| - 1] == Message(User, Text(p.inFlight.value.message)))
  }

  lemma StartConsistent()
    ensures Consistent(Start)
  {
  }

  /** An accepted submission appends a user turn at an even position and puts exactly that request in flight. */
  lemma SendConsistent(p: PageWithRequest)
    requires Consistent(p)
    ensures Consistent(Send(p))
    ensures |Send(p).session.messages| <= |p.session.messages| + 1
    ensures p.session.messages <= Send(p).session.messages
  {
  }

  /**
    A response settles the one request in flight. Because nothing else can
    change the history while the page is busy, the captured history of the
    success path and the current history of the error path are the same,
    and either way exactly one assistant turn is appended.
   */
  lemma SettleAppendsAnswer(p: PageWithRequest, outcome: Outcome)
    requires Consistent(p) && p.inFlight.Some?
    ensures Step(p, Settled(outcome)).session.messages == p.session.messages + [AnswerFor(outcome)]
    ensures Step(p, Settled(outcome)).inFlight.None?
    ensures !Step(p, Settled(outcome)).session.isLoading
  {
  }

  lemma SettleConsistent(p: PageWithRequest, outcome: Outcome)
    requires Consistent(p)
    ensures Consistent(Step(p, Settled(outcome)))
    ensures |Step(p, Settled(outcome)).session.messages| <= |p.session.messages| + 1
    ensures p.session.messages <= Step(p, Settled(outcome)).session.messages
  {
  }

  /** Every event keeps the invariant, adds at most one message and never alters an earlier one. */
  lemma StepConsistent(p: PageWithRequest, e: Event)
    requires Consistent(p)
    ensures Consistent(Step(p, e))
    ensures |Step(p, e).session.messages| <= |p.session.messages| + 1
    ensures p.session.messages <= Step(p, e).session.messages
  {
    match e
    case KeyPressed(key) => SendConsistent(p);
    case SendClicked => SendConsistent(p);
    case Settled(outcome) => SettleConsistent(p, outcome);
    case _ =>
  }

  /** Any sequence of events keeps the invariant, and the earlier history stays a prefix (the history is append-only). */
  lemma {:induction false} RunConsistent(p: PageWithRequest, events: seq<Event>)
    requires Consistent(p)
    ensures Consistent(Run(p, events))
    ensures p.session.messages <= Run(p, events).session.messages
    ensures |Run(p, events).session.messages| <= |p.session.messages| + |events|
    decreases |events|
  {
    if events != [] {
      StepConsistent(p, events[0]);
      RunConsistent(Step(p, events[0]), events[1..]);
    }
  }

  /** From a fresh page, every reachable page is consistent; when idle, every user turn has its answer. */
  lemma Reachable(events: seq<Event>)
    ensures Consistent(Run(Start, events))
    ensures !Run(Start, events).session.isLoading ==> |Run(Start, events).session.messages| % 2 == 0
  {
    StartConsistent();
    RunConsistent(Start, events);
  }

  /** Enter without Shift outside a composition does what the send button does; any other key does nothing. */
  lemma EnterActsAsSendButton(p: PageWithRequest, key: KeyEvent)
    ensures Step(p, KeyPressed(key)) == if SubmitsOn(key) then Step(p, SendClicked) else p
  {
  }

  /** No two submissions are in flight at once: while busy, Enter and the send button change nothing. */
  lemma BusyRejectsSubmission(p: PageWithRequest, e: Event)
    requires Consistent(p) && p.inFlight.Some?
    requires e.SendClicked? || e.KeyPressed?
    ensures Step(p, e) == p
  {
  }

  /** The recogniser's results, applied in order to the draft. */
  function HearAll(draft: string, transcripts: seq<string>): string
    decreases |transcripts|
  {
    if transcripts == [] then draft
    else HearAll(AppendTranscript(draft, transcripts[0]), transcripts[1..])
  }

  /** However many results arrive, the draft they started from is never overwritten. */
  lemma {:induction false} HearAllKeepsDraft(draft: string, transcripts: seq<string>)
    ensures draft <= HearAll(draft, transcripts)
    decreases |transcripts|
  {
    if transcripts != [] {
      var next := AppendTranscript(draft, transcripts[0]);
      HearAllKeepsDraft(next, transcripts[1..]);
    }
  }
}

/**
  Concrete sessions of the chat page, worked out from the model: the
  behaviour a user sees for particular drafts, replies and transcripts.
 */
module Scenarios {
  import opened JsStrings
  import opened Chat
  import opened Conversation

  /** Drafts of spaces, including the full-width space of Japanese input, are never sent. */
  lemma BlankDraftsRejected()
    ensures StartSubmit(Initial.(input := "")).1.None?
    ensures StartSubmit(Initial.(input := "   ")).1.None?
    ensures StartSubmit(Initial.(input := "\U{3000}\n")).1.None?
  {
  }

  /** The first request of a session carries exactly the one user turn. */
  lemma FirstRequestHistory()
    ensures StartSubmit(Initial.(input := "頭が痛いです")).1
         == Some(Request("頭が痛いです", [Message(User, Text("頭が痛いです"))]))
  {
    var draft := "頭が痛いです";
    assert !IsWhiteSpace(draft[0]) && !IsWhiteSpace(draft[|draft| - 1]);
    assert TrimStart(draft) == draft && TrimEnd(draft) == draft;
    var s := Initial.(input := draft);
    assert !IsBlank(s.input) && !s.isLoading;
    assert StartSubmit(s).1.Some?;
    assert StartSubmit(s).1.value.history == [Message(User, Text(draft))];
    assert StartSubmit(s).1.value.message == draft;
  }

  /** A 500 response adds the fixed error text as an assistant turn and leaves the page idle. */
  lemma ServerErrorFallback(s: Session, request: Request)
    ensures CompleteSubmit(s, request, Responded(500, JsonValue(Some("ok")))).messages
         == s.messages + [Message(Assistant, Text(ErrorText))]
    ensures !CompleteSubmit(s, request, Responded(500, JsonValue(Some("ok")))).isLoading
  {
  }

  /** A 2xx JSON body without `reply` adds an assistant turn whose content is undefined; it never shows the booking link. */
  lemma MissingReplyField(s: Session, request: Request)
    ensures CompleteSubmit(s, request, Responded(200, JsonValue(None))).messages
         == request.history + [Message(Assistant, Undefined)]
    ensures !ShowBooking(CompleteSubmit(s, request, Responded(200, JsonValue(None))).messages)
  {
  }

  lemma BookingLinkExamples()
    ensures ShowBooking([Message(Assistant, Text("健診の予約はできますか"))])
    ensures !ShowBooking([Message(Assistant, Text("頭痛について教えてください"))])
    ensures ShowBooking([Message(User, Text("人間ドックはいくら"))])
    ensures !ShowBooking([])
  {
    assert OccursAt("健診の予約はできますか", Checkup, 0);
    assert OccursAt("人間ドックはいくら", HumanDock, 0);
    var t := "頭痛について教えてください";
    forall i: nat | i <= |t| ensures !OccursAt(t, HumanDock, i) && !OccursAt(t, Checkup, i) {
      if i + 1 < |t| {
        assert t[i..i + 2][0] == t[i];
      }
    }
  }

  lemma VoiceAppendExample()
    ensures AppendTranscript("こんにちは", "お腹が痛い") == "こんにちは お腹が痛い"
    ensures AppendTranscript("", "お腹が痛い") == "お腹が痛い"
  {
  }

  /** Type a question, press send, receive a reply: two turns in order and an idle page. */
  lemma RoundTrip()
    ensures Run(Start, [Typed("喉が痛い"), SendClicked,
                        Settled(Responded(200, JsonValue(Some("お早めに医師にご相談ください"))))]).session
         == Session([Message(User, Text("喉が痛い")), Message(Assistant, Text("お早めに医師にご相談ください"))],
                    "", false, false)
  {
  }
}

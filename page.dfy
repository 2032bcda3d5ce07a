/**
  The chat page component as an object: its four pieces of state are
  fields, and each handler updates them in place, in the order the
  component does. Every method is proved to agree with the matching
  function of module `Chat`, so what is proved there holds here.
 */
module ChatPage {
  import opened JsStrings
  import opened Chat

  class Page {
    var messages: seq<Message>
    var input: string
    var isLoading: bool
    var isRecording: bool

    /** The current state as a value. */
    function State(): Session
      reads this
    {
      Session(messages, input, isLoading, isRecording)
    }

    /** The four `useState` initial values. */
    constructor ()
      ensures State() == Initial
    {
      messages := [];
      input := "";
      isLoading := false;
      isRecording := false;
    }

    /** The textarea's `onChange`. */
    method OnChange(text: string)
      modifies this
      ensures State() == Edit(old(State()), text)
    {
      input := text;
    }

    /**
      `handleSubmit` up to the `fetch` call; `request` is the body that is
      posted, or None when the guard returns early.
     */
    method SubmitStart() returns (request: Option<Request>)
      modifies this
      ensures State() == StartSubmit(old(State())).0 && request == StartSubmit(old(State())).1
      ensures request.None? ==> unchanged(this)
    {
      if IsBlank(input) || isLoading {
        return None;
      }
      var userInput := input;
      var newMessages := messages + [Message(User, Text(userInput))];
      messages := newMessages;
      input := "";
      isLoading := true;
      request := Some(Request(userInput, newMessages));
    }

    /**
      `handleSubmit` after `fetch` settles with `outcome`, for the `request`
      that `SubmitStart` sent (its history is the captured `newMessages`).
     */
    method SubmitComplete(request: Request, outcome: Outcome)
      modifies this
      ensures State() == CompleteSubmit(old(State()), request, outcome)
      ensures !isLoading && input == old(input)
    {
      var reply := Reply(outcome);
      if reply.Some? {
        messages := request.history + [Message(Assistant, reply.value)];
      } else {
        messages := messages + [ErrorMessage];
      }
      isLoading := false;
    }

    /** All of `handleSubmit`, with no other event between the request and its outcome. */
    method Submit(outcome: Outcome) returns (request: Option<Request>)
      modifies this
      ensures (State(), request) == HandleSubmit(old(State()), outcome)
    {
      request := SubmitStart();
      if request.Some? {
        SubmitComplete(request.value, outcome);
      }
    }

    /**
      `handleKeyDown`: on Enter without Shift outside a composition the
      default newline is prevented and the submission starts; any other key
      changes nothing.
     */
    method KeyDown(e: KeyEvent) returns (preventDefault: bool, request: Option<Request>)
      modifies this
      ensures preventDefault == SubmitsOn(e)
      ensures preventDefault ==> (State(), request) == StartSubmit(old(State()))
      ensures !preventDefault ==> request.None? && unchanged(this)
    {
      preventDefault, request := false, None;
      if e.isComposing {
        return;
      }
      if e.key == "Enter" && !e.shiftKey {
        preventDefault := true;
        request := SubmitStart();
      }
    }

    /** `startRecognition`; `available` says whether the browser offers a speech recogniser. */
    method StartVoice(available: bool) returns (started: bool)
      modifies this
      ensures started == available
      ensures State() == StartRecognition(old(State()), available)
    {
      if !available {
        return false;
      }
      isRecording := true;
      started := true;
    }

    /** The recogniser's `onresult` with the first alternative of the first result. */
    method OnResult(transcript: string)
      modifies this
      ensures State() == HearTranscript(old(State()), transcript)
      ensures old(input) <= input
    {
      input := AppendTranscript(input, transcript);
    }

    /** The recogniser's `onend`. */
    method OnEnd()
      modifies this
      ensures State() == EndRecognition(old(State()))
    {
      isRecording := false;
    }

    /** Whether the booking link is rendered for the current history. */
    method BookingVisible() returns (visible: bool)
      ensures visible == ShowBooking(messages)
    {
      visible := ShowBooking(messages);
    }
  }
}

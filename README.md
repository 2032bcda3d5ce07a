# Chat session controller of the medical chat page

This project models the conversation controller of the chat page in
`src/pages/index.tsx`. The controller is a small state machine over four
pieces of component state:

- `messages`: the ordered history of `{role, content}` turns;
- `input`: the draft in the textarea;
- `isLoading`: set while a request to the chat endpoint is outstanding;
- `isRecording`: set while the speech recogniser is listening.

Its handlers are modelled here. `handleSubmit` has a guard against blank
drafts and against a request already in flight. When it accepts, it appends
the user turn, posts the message and history, and then appends either the
reply or a fixed error text; `finally` clears the busy flag. `handleKeyDown`
submits on Enter. `startRecognition` starts voice capture, and its `onresult`
and `onend` callbacks append the transcript to the draft and stop recording.
The booking link is shown when the newest message contains a check-up
keyword.

Files and modules:

- `strings.dfy`, module `JsStrings`: JavaScript's `trim` with the ECMAScript white-space and line-terminator set (including the ideographic space U+3000), the blank test `!s.trim()`, and substring occurrence.
- `chat.dfy`, module `Chat`: the data model (`Message`, `Request`, the `fetch` `Outcome`, the `Session` state) and each handler as a function from the old state to the new one. These functions are the specification.
- `page.dfy`, module `ChatPage`: class `Page`, with the four state fields updated in place by methods that follow the handlers statement by statement. Each method is proved to agree with its `Chat` function.
- `conversation.dfy`, module `Conversation`: whole sessions as sequences of UI events, including voice results that arrive while a request is in flight. It proves the conversation invariant, that the history is append-only, and that only one submission is ever in flight.
- `scenarios.dfy`, module `Scenarios`: concrete sessions worked out from the model.

The `fetch` call is replaced by an `Outcome` value. The outcome is either a
transport error or a response with a status and a body. The body is either
not JSON, JSON `null`, or another JSON value whose `reply` field may be
absent. The speech engine is replaced by an `available` flag and by the
transcript strings it delivers.

Behaviour kept from the code:

- The user turn holds the untrimmed draft. Trimming only decides whether to send.
- A 2xx response whose JSON has no `reply` field does not throw. The assistant turn gets content `undefined` (`Content.Undefined`). Because `String(undefined)` is `"undefined"`, such a turn never shows the booking link.
- A 2xx response whose body is JSON `null` throws when `.reply` is read, so it takes the error path.
- The success path sets the history to the captured request history plus the reply. The error path appends to the current history. `Conversation.SettleAppendsAnswer` proves the two agree, because nothing can change the history while a request is in flight.
- The booking link depends on the newest message whatever its role, so a user turn that mentions 健診 shows it too.

## Model

| member | source | states |
|---|---|---|
| `JsStrings.TrimStartSpec` | src/pages/index.tsx:67 | the leading part that `trim` drops is all white space; what remains is a suffix of the draft and starts with a non-blank character |
| `JsStrings.TrimEndSpec` | src/pages/index.tsx:67 | the trailing part that `trim` drops is all white space; what remains is a prefix and ends with a non-blank character |
| `JsStrings.TrimSpec` | src/pages/index.tsx:67 | `input.trim()` is an infix of the draft with only white space cut from either end, and it neither starts nor ends with white space |
| `JsStrings.BlankIffAllWhiteSpace` | src/pages/index.tsx:67 | `!input.trim()` holds exactly when every character of the draft is white space |
| `Chat.IsOk` | src/pages/index.tsx:87 | `res.ok` holds exactly for statuses whose hundreds digit is 2, that is 200 to 299 |
| `Chat.AnswerFor` | src/pages/index.tsx:87-98 | the answer is always an assistant turn; it is the fixed error message unless the outcome is a 2xx response with a non-null JSON body, and then its content is the `reply` text, or `undefined` when the field is missing |
| `Chat.Reply` | src/pages/index.tsx:87-89 | a reply is used exactly when the outcome is a 2xx response with a non-null JSON body; the content is `undefined` exactly when the `reply` field is missing, and otherwise it is that field's text |
| `Chat.StartSubmit` | src/pages/index.tsx:66-84 | the submission is rejected exactly when the draft is blank or a request is in flight, and then nothing changes and nothing is sent; when accepted, the history grows by one user turn with the untrimmed draft, the draft is cleared, the page is busy, and the request carries the draft and the new history |
| `Chat.CompleteSubmit` | src/pages/index.tsx:87-104 | after any outcome the page is idle and the draft and recording flag are untouched; the new last turn is the assistant answer (the reply or the fixed error text); before it stands the captured request history on success and the current history on error |
| `Chat.HandleSubmit` | src/pages/index.tsx:66-105 | a whole submission either changes nothing (blank draft or busy) or adds exactly two turns, the user draft and the assistant answer, to the old history, leaving the page idle with an empty draft |
| `Chat.Edit` | src/pages/index.tsx:211 | typing replaces the draft and changes nothing else |
| `Chat.AppendTranscript` | src/pages/index.tsx:52-55 | the old draft is a prefix of the new one; the transcript ends it; one space separates them exactly when the old draft is non-empty |
| `Chat.HearTranscript` | src/pages/index.tsx:52-55 | a voice result changes only the draft, which becomes the old draft with the transcript appended |
| `Chat.StartRecognition` | src/pages/index.tsx:38-64 | without a recogniser nothing changes; with one, recording is on; history, draft and busy flag are untouched |
| `Chat.EndRecognition` | src/pages/index.tsx:57-59 | the end of capture turns recording off and touches nothing else |
| `Chat.SearchFrom` | src/pages/index.tsx:189 | the scan from index i finds a match exactly when some later index starts 人間ドック or 健診 |
| `Chat.KeywordTest` | src/pages/index.tsx:189 | the keyword pattern test on a text holds exactly when the text contains one of the two keywords |
| `Chat.ShowBooking` | src/pages/index.tsx:189 | the booking link shows exactly when there is a message, the newest one has text (not `undefined`), and that text contains 人間ドック or 健診, whatever the role |
| `Chat.SubmitsOn` | src/pages/index.tsx:108-109 | a key submits only when it is Enter; never during an IME composition or with Shift held; and Enter without Shift outside a composition always submits |
| `Chat.LastMessage` | src/pages/index.tsx:115 | `lastMessage` is the empty text for an empty history and otherwise the content of the newest message |
| `Chat.LastMessageAfterAppend` | src/pages/index.tsx:115 | after any message is appended, `lastMessage` is that message's content, so the booking link is decided by the new turn alone |
| `ChatPage.Page.constructor` | src/pages/index.tsx:15-18 | a new page has an empty history, an empty draft, and is neither busy nor recording |
| `ChatPage.Page.OnChange` | src/pages/index.tsx:211 | the textarea's change handler updates the state as `Chat.Edit` does |
| `ChatPage.Page.SubmitStart` | src/pages/index.tsx:66-73 | the in-place guard and updates of `handleSubmit` up to `fetch` produce the state and request of `Chat.StartSubmit`; a rejected call leaves the object unchanged |
| `ChatPage.Page.SubmitComplete` | src/pages/index.tsx:87-104 | the `try`/`catch`/`finally` after `fetch` settles produce the state of `Chat.CompleteSubmit`; busy is off afterwards |
| `ChatPage.Page.Submit` | src/pages/index.tsx:66-105 | the whole handler, run without interruption, produces the state and request of `Chat.HandleSubmit` |
| `ChatPage.Page.KeyDown` | src/pages/index.tsx:107-113 | the newline is suppressed and a submission starts exactly on Enter without Shift outside an IME composition; every other key leaves the object unchanged |
| `ChatPage.Page.StartVoice` | src/pages/index.tsx:38-64 | capture starts exactly when a recogniser is available, with the state of `Chat.StartRecognition` |
| `ChatPage.Page.OnResult` | src/pages/index.tsx:52-55 | a transcript extends the draft as `Chat.HearTranscript` does, never overwriting it |
| `ChatPage.Page.OnEnd` | src/pages/index.tsx:57-59 | the end callback turns recording off as `Chat.EndRecognition` does |
| `ChatPage.Page.BookingVisible` | src/pages/index.tsx:115 | the booking link is visible exactly when `Chat.ShowBooking` holds for the current history |
| `Conversation.Send` | src/pages/index.tsx:66-73 | a rejected submission leaves the page and its in-flight request as they were; an accepted one takes the state and request of `Chat.StartSubmit` and leaves the page busy |
| `Conversation.Step` | src/pages/index.tsx:38-113 | typing and the voice events leave history, busy flag and in-flight request alone; a key that does not submit changes nothing; a response with nothing in flight changes nothing; settling the request in flight clears it, makes the page idle and ends the history with the answer |
| `Conversation.EnterActsAsSendButton` | src/pages/index.tsx:107-113 | Enter without Shift outside a composition has exactly the effect of the send button, and every other key has none |
| `Conversation.SendConsistent` | src/pages/index.tsx:67-73 | an accepted submission keeps user and assistant turns alternating, appends at most one message, and puts exactly its request in flight |
| `Conversation.SettleAppendsAnswer` | src/pages/index.tsx:87-100 | when the one request in flight settles, both the success path and the error path append exactly one assistant turn to the current history, and the page is idle again |
| `Conversation.SettleConsistent` | src/pages/index.tsx:87-100 | settling a response keeps the conversation invariant and the old history as a prefix |
| `Conversation.StepConsistent` | src/pages/index.tsx:38-113 | every UI event keeps the invariant: turns alternate, user turns are non-blank drafts, busy holds exactly when one request is in flight, and that request's history is the current history ending in its user turn; no event removes or edits a message |
| `Conversation.RunConsistent` | src/pages/index.tsx:66-105 | any sequence of events keeps the invariant and keeps the earlier history as a prefix, adding at most one message per event |
| `Conversation.Reachable` | src/pages/index.tsx:15-18 | from a fresh page every reachable state is consistent; when idle, the history has even length, so every user turn is answered |
| `Conversation.BusyRejectsSubmission` | src/pages/index.tsx:67 | while a request is in flight, Enter and the send button change nothing, so two submissions are never in flight together |
| `Conversation.HearAllKeepsDraft` | src/pages/index.tsx:54 | however many voice results arrive, the draft they started from stays a prefix |
| `Scenarios.BlankDraftsRejected` | src/pages/index.tsx:67 | an empty draft, a draft of spaces, and a draft of an ideographic space and a newline are not sent |
| `Scenarios.FirstRequestHistory` | src/pages/index.tsx:68-84 | submitting 頭が痛いです on a fresh page posts that message with a history of exactly one user turn |
| `Scenarios.ServerErrorFallback` | src/pages/index.tsx:87-100 | a 500 response appends exactly the fixed error turn and clears busy |
| `Scenarios.MissingReplyField` | src/pages/index.tsx:88-89 | a 2xx JSON body without `reply` appends an assistant turn with content `undefined`, and the booking link is hidden |
| `Scenarios.BookingLinkExamples` | src/pages/index.tsx:189 | 健診の予約はできますか and a user turn with 人間ドック show the link; 頭痛について教えてください and an empty history do not |
| `Scenarios.VoiceAppendExample` | src/pages/index.tsx:54 | こんにちは followed by the transcript お腹が痛い gives こんにちは お腹が痛い; an empty draft becomes the transcript itself |
| `Scenarios.RoundTrip` | src/pages/index.tsx:66-105 | typing 喉が痛い, sending, and receiving a reply leaves exactly the user turn and the reply, an empty draft and an idle page |

## Left out

- Rendering: the JSX, Tailwind classes, textarea auto-resize, scroll-into-view on new messages, and focus returning to the textarea in `finally`. These are presentation only.
- The network: the `fetch` call, endpoint URL, headers and JSON serialisation are replaced by the `Outcome` value. The model says what is posted (`Request`) but not how it is encoded.
- A `reply` field that is JSON but not a string (a number or an object) is not modelled. The body's `reply` is either a string or absent.
- The Web Speech API object, its settings (`ja-JP`, no interim results, one alternative) and the `alert` shown when it is missing. They are foreign platform capabilities. The model keeps only "unavailable changes nothing", "start turns recording on", "end turns recording off", and the transcript of the first alternative.
- `console.error` logging in the `catch` block.
- React's asynchronous state updates. The handlers read `input` and `isLoading` from the render in which they were created. Two submissions fired before React re-renders could both pass the guard. The model applies each event to the latest state, one at a time.
- UI affordances that discourage events but do not change the handlers: the disabled send and microphone buttons and the read-only textarea while busy. The event model allows every event at every time, which is more general.
- Cancellation of late callbacks on teardown. The code has none, so the model has none.
- Strings are sequences of Unicode characters, not UTF-16 code units. This changes no behaviour modelled here, because trim and the keyword test only compare whole characters from the Basic Multilingual Plane.
- `medical-bot-lite/src/pages/index.tsx` (an earlier prototype with no guard or history), `src/app/layout.tsx` and `src/pages/_app.tsx` (metadata and styling) are not part of this model.

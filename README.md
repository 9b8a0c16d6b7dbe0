# Ayunetra health assistant: relay, chat session and hospital finder

This project models the core of the Ayunetra web application in Dafny and proves properties of
the model. The core has three parts.

- **The completion relay** (`src/pages/api/getanswer.ts`), in `relay_compose.dfy` and
  `relay_frames.dfy`. The relay builds the `messages` array sent to the Azure OpenAI
  deployment: the fixed system prompt, then the prior turns without their timestamps, then the
  new user turn, which has two parts when an image URL is given. It also builds the
  completions URL and answers with a status-500 JSON error when the request body cannot be
  read, the API key is missing, `fetch` throws or the provider answers with a non-ok status.
  Otherwise it re-frames the provider's `data: ` lines into the client's event stream.
  `transform` is modelled as a method with a `while` loop over the non-blank lines of a chunk.
  `flush` and the whole pipe are methods too. Each is proved against a function that gives
  the frames of a line, a chunk and a stream. The lemmas describe the frames: where terminal
  `[DONE]` frames occur and how many there are, that content keeps its upstream order, which
  lines are ignored, and that a chunk boundary that falls between lines does not matter. A
  line cut in two by a chunk boundary is lost (`RelayFrames.SplitLineLost`).
- **The chat page** (`src/pages/chatbot.tsx`), in `chat_session.dfy`. A `Session` class
  holds the page's React state. Its methods are submitting a question (`handleSubmit`),
  starting a new chat, picking a saved exchange from the history, choosing or removing an
  image, typing, and the drawer and symptom picker. `Submit` is specified by the pure
  `SubmitOutcome` on a value view of the state. Lemmas about `SubmitOutcome` cover the skip
  rule for blank input, the return to idle, the append-only conversation, the body that is
  posted, and the success and failure paths. YouTube link cleaning is proved to be
  idempotent and to leave no escaped ampersand.
- **The hospital finder** (`src/components/hospital-finder.tsx`), in `hospital_finder.dfy`.
  It holds:
  - the keyword classifier for hospital icons, proved equal to a first-match reference over
    the ordered keyword table;
  - phone-number digit stripping and what a call does on mobile and desktop;
  - the geolocation error messages;
  - a `Finder` class with the panel's state.

  `Finder`'s methods are map load and unload, the fill-once place-details cache
  (`getHospitalDetails`), the nearby search with its `forEach` over the results, and the
  geolocation request.

`wrappers.dfy` holds `Option` and `Result`. `text.dfy` holds the JavaScript string operations
the code relies on: `split` on one character, `trim`-blankness, `includes`, ASCII
`toLowerCase` and `startsWith`. `Join` is not used by the code; it is the inverse that pins
`split` down.

The external services are parameters of the model:
- the provider's reply, given as the chunks of its body;
- `JSON.parse` together with the `choices[0]` reads, given as `parseJson`;
- the answer service's reply;
- `FileReader`;
- the places service lookups;
- the browser's position.

A streaming relay is usually expected to send a single terminal marker and then close. This
code does not:
- A `data: [DONE]` line (or `finish_reason === "stop"`) only ends the current `transform`
  call. Later chunks are still relayed, and `flush` always adds another `[DONE]`. So a
  provider that sends `[DONE]` makes the client receive two terminal frames
  (`RelayFrames.HelloThereStream`, `RelayFrames.UpstreamStopGivesTwoTerminalFrames`), and
  content can follow a terminal frame (`RelayFrames.ContentAfterTerminalFrame`).
- When the provider answers with a non-ok status, the client gets a status-500 JSON error
  and no stream at all.

## Model

| member | source | states |
|---|---|---|
| Text.StartsWith | src/pages/api/getanswer.ts:103 | `startsWith`: the text begins with the prefix |
| Text.StartsWithAt | src/pages/api/getanswer.ts:103 | a text starts with a prefix exactly when the prefix is no longer and agrees with it position by position |
| Text.ContainsAt | src/components/hospital-finder.tsx:23 | `Contains` (the model of `includes`) holds whenever the substring occurs at some index |
| Text.ContainsWitness | src/components/hospital-finder.tsx:23 | conversely, whenever `Contains` holds there is an index where the substring occurs |
| Text.SplitOn | src/pages/api/getanswer.ts:99 | `split` on one character always yields at least one piece |
| Text.SplitOnPieces | src/pages/api/getanswer.ts:99 | no piece produced by `split` contains the separator |
| Text.JoinSplitOn | src/pages/api/getanswer.ts:99 | joining the pieces with the separator gives back the original text |
| Text.SplitOnNoSeparator | src/pages/api/getanswer.ts:99 | text without the separator splits into itself alone |
| Text.SplitOnFirstSeparator | src/pages/api/getanswer.ts:99 | the first separator cuts off the first piece, and the rest splits independently |
| Text.SplitOnJoin | src/pages/api/getanswer.ts:99 | pieces that contain no separator come back unchanged from join-then-split |
| Text.SplitOnConcat | src/pages/api/getanswer.ts:99 | a separator cuts the text in two independently: the pieces of `x + sep + y` are the pieces of `x` followed by those of `y` |
| Text.IsBlank | src/pages/api/getanswer.ts:99 | `trim() === ""`: every character is JavaScript whitespace (the empty text included) |
| Text.IsBlankAppend | src/pages/api/getanswer.ts:99 | a text is blank exactly when both of its parts are |
| Text.NonBlank | src/pages/api/getanswer.ts:99 | the `trim() !== ""` filter never adds pieces |
| Text.NonBlankSingle | src/pages/api/getanswer.ts:99 | one piece is dropped exactly when it is blank, and kept as it is otherwise |
| Text.NonBlankAppend | src/pages/api/getanswer.ts:99 | the filter works piece by piece: filtering `a + b` gives the filtered `a` followed by the filtered `b` |
| Text.NonBlankPieces | src/pages/api/getanswer.ts:99 | every kept piece was in the input and is not blank |
| Text.NonBlankKeepsAll | src/pages/api/getanswer.ts:99 | when no piece is blank, the filter keeps all of them in order |
| Text.LowerChar | src/components/hospital-finder.tsx:22 | an upper-case ASCII letter becomes the lower-case letter at the same place in the alphabet; the result is never an upper-case letter, and every other character is unchanged |
| Text.Lower | src/components/hospital-finder.tsx:22 | `toLowerCase` keeps the length and lower-cases each character in its place |
| Text.LowerIdempotent | src/components/hospital-finder.tsx:22 | lower-casing twice equals lower-casing once |
| RelayFrames.LineStep | src/pages/api/getanswer.ts:102-124 | one line enqueues at most two frames, and a line without `data: ` enqueues nothing and does not return |
| RelayFrames.LinesFrames | src/pages/api/getanswer.ts:101-126 | the lines of a chunk enqueue at most two frames each |
| RelayFrames.ChunkLines | src/pages/api/getanswer.ts:99 | a chunk without a newline is one line, or no line at all when it is blank |
| RelayFrames.ChunkLinesConcat | src/pages/api/getanswer.ts:99 | a newline cuts a chunk's lines apart: the lines of `x + "\n" + y` are the lines of `x` followed by those of `y` |
| RelayFrames.ChunkFrames | src/pages/api/getanswer.ts:97-127 | one `transform` call enqueues at most one terminal frame, and when it does that frame is the last one |
| RelayFrames.ChunksFrames | src/pages/api/getanswer.ts:96-127 | the chunks together enqueue at most one terminal frame per chunk |
| RelayFrames.ClassifyPayload | src/pages/api/getanswer.ts:103-110 | the payload is the sentinel exactly when it equals `[DONE]`; it is malformed exactly when it is not the sentinel and does not parse; otherwise it is what the parse gave |
| RelayFrames.LineStepShape | src/pages/api/getanswer.ts:102-125 | one line enqueues at most one non-empty content frame and at most one terminal frame; the terminal frame comes last, and it is present exactly when the loop returns; a line without `data: ` enqueues nothing |
| RelayFrames.ChunkLinesShape | src/pages/api/getanswer.ts:99 | the lines of a chunk contain no newline and are not blank |
| RelayFrames.StreamFrames | src/pages/api/getanswer.ts:128-134 | the relayed stream always ends with a terminal frame |
| RelayFrames.TransformLine | src/pages/api/getanswer.ts:102-124 | one loop pass enqueues the frames of `LineStep` and returns exactly when that step stops |
| RelayFrames.Transform | src/pages/api/getanswer.ts:97-127 | `transform` enqueues exactly the frames of its chunk's non-blank lines, up to and including the first line that returns |
| RelayFrames.TransformLines | src/pages/api/getanswer.ts:101-126 | the `while` loop, standing for the source's `for` loop, enqueues exactly the frames of its lines, up to and including the first line that returns |
| RelayFrames.Flush | src/pages/api/getanswer.ts:128-134 | `flush` enqueues exactly one terminal frame |
| RelayFrames.Relay | src/pages/api/getanswer.ts:96-137 | the pipe's output is every chunk's frames in arrival order, followed by the frame from `flush` |
| RelayFrames.LinesFramesAppend | src/pages/api/getanswer.ts:101-126 | while no line returns, lines are handled one after another: the frames of `a + b` are those of `a` followed by those of `b` |
| RelayFrames.TerminalLineCutsChunk | src/pages/api/getanswer.ts:104-119 | once a line returns, the later lines of the same chunk contribute nothing |
| RelayFrames.InertLineCases | src/pages/api/getanswer.ts:102-124 | a line is inert exactly when it lacks `data: `, or its payload does not parse, or it parses to empty content without a stop |
| RelayFrames.InertLineInvisible | src/pages/api/getanswer.ts:120-124 | an inert line inserted anywhere in a chunk leaves the chunk's frames unchanged |
| RelayFrames.DoneLineEndsChunk | src/pages/api/getanswer.ts:104-107 | a `data: [DONE]` line adds exactly one terminal frame and ends the chunk |
| RelayFrames.ChoiceLineStep | src/pages/api/getanswer.ts:108-119 | a parsed payload enqueues its content frame when the content is non-empty, then a terminal frame when `finish_reason` is `stop` |
| RelayFrames.StopChoiceEndsChunk | src/pages/api/getanswer.ts:111-119 | a payload that finishes enqueues its content (if non-empty) and a terminal frame, and ends the chunk |
| RelayFrames.ContinuingChoiceFrames | src/pages/api/getanswer.ts:111-115 | a payload that does not finish contributes exactly its non-empty content, and the rest of the chunk follows |
| RelayFrames.ContinuingLineFrames | src/pages/api/getanswer.ts:101-126 | any line that does not return places its frames between those of the lines before and after it |
| RelayFrames.ChunkTerminalFrame | src/pages/api/getanswer.ts:104-119 | within one chunk the terminal frame appears once if some line returns and never otherwise, and it is the last frame |
| RelayFrames.ChunkTerminalCount | src/pages/api/getanswer.ts:104-119 | the lines of a chunk enqueue one terminal frame if some line returns and none otherwise |
| RelayFrames.ChunkTerminalLast | src/pages/api/getanswer.ts:104-119 | when some line of a chunk returns, the last frame the chunk enqueues is the terminal frame |
| RelayFrames.StopStepEndsWithDone | src/pages/api/getanswer.ts:104-119 | a line that returns has enqueued the terminal frame last |
| RelayFrames.ContentsOf | src/pages/api/getanswer.ts:112-114 | extracting contents never yields more entries than there are frames |
| RelayFrames.ContentsOfAppend | src/pages/api/getanswer.ts:112-114 | the contents of concatenated frames are the concatenated contents |
| RelayFrames.LineContent | src/pages/api/getanswer.ts:110-115 | a line delivers at most one content |
| RelayFrames.LineStepContents | src/pages/api/getanswer.ts:110-115 | the content frames of a line step are exactly the line's deliverable content |
| RelayFrames.ChunkContentsInOrder | src/pages/api/getanswer.ts:101-126 | a chunk delivers a prefix of its lines' contents in upstream order, and all of them when no line returns |
| RelayFrames.ChunksTerminalFrames | src/pages/api/getanswer.ts:96-127 | the chunks produce one terminal frame per chunk cut short by a terminal line |
| RelayFrames.StreamTerminalFrames | src/pages/api/getanswer.ts:96-134 | the stream holds one terminal frame per chunk cut short, plus the one from `flush` |
| RelayFrames.TerminatedChunkCounted | src/pages/api/getanswer.ts:104-119 | a chunk containing a terminal line counts as cut short |
| RelayFrames.UpstreamStopGivesTwoTerminalFrames | src/pages/api/getanswer.ts:104-134 | an upstream stop makes the client receive at least two terminal frames |
| RelayFrames.SingleTerminalFrameWithoutUpstreamStop | src/pages/api/getanswer.ts:128-134 | without an upstream stop the only terminal frame is the final one from `flush` |
| RelayFrames.ChunkBoundariesInvisible | src/pages/api/getanswer.ts:96-127 | without an upstream stop, the frames are those of all the chunks' lines taken as one chunk, so a chunk boundary that falls between lines does not matter (with `ChunkLinesConcat`, the lines of two chunks are those of the chunks joined by a newline) |
| RelayFrames.StreamContentsInOrder | src/pages/api/getanswer.ts:96-134 | without an upstream stop the client receives the non-empty content of every line of every chunk, in upstream order (lines are those of each chunk on its own) |
| RelayFrames.DataChunkLines | src/pages/api/getanswer.ts:99 | a chunk made of one `data: ` line is read as that single line |
| RelayFrames.DataChunkFrames | src/pages/api/getanswer.ts:97-126 | a chunk made of one `data: ` line yields exactly that line's frames |
| RelayFrames.DoneLineStep | src/pages/api/getanswer.ts:104-107 | `data: [DONE]` enqueues one terminal frame and returns |
| RelayFrames.MalformedLineInert | src/pages/api/getanswer.ts:120-124 | a payload that does not parse is skipped and the loop goes on |
| RelayFrames.OneChunkStream | src/pages/api/getanswer.ts:96-137 | a one-chunk body gives that chunk's frames followed by the frame from `flush` |
| RelayFrames.SplitLineLost | src/pages/api/getanswer.ts:98-99 | a `data: ` line whose content reaches the client when it arrives whole is lost when a chunk boundary cuts it after `data: `: only the frame from `flush` arrives |
| RelayFrames.WholeDataLine | src/pages/api/getanswer.ts:102-115 | a `data: ` line with non-empty content, arriving as one chunk, reaches the client followed by the frame from `flush` |
| RelayFrames.CutDataLine | src/pages/api/getanswer.ts:98-99 | `data: ` and its payload arriving in two chunks give only the frame from `flush` |
| RelayFrames.InertChunkFrames | src/pages/api/getanswer.ts:99-124 | a chunk that is one inert line enqueues nothing |
| RelayFrames.DoneChunkFrames | src/pages/api/getanswer.ts:104-107 | a chunk that is the line `data: [DONE]` enqueues one terminal frame |
| RelayFrames.ContentChunkFrames | src/pages/api/getanswer.ts:108-115 | a chunk that is one `data: ` line with non-empty content and no stop enqueues exactly that content |
| RelayFrames.TwoChunkStream | src/pages/api/getanswer.ts:96-137 | two chunks give their frames in order, followed by the frame from `flush` |
| RelayFrames.ContentAfterTerminalFrame | src/pages/api/getanswer.ts:104-134 | a `[DONE]` chunk followed by a content chunk gives terminal, content, terminal |
| RelayFrames.FourLineFrames | src/pages/api/getanswer.ts:101-126 | content, malformed, content and `[DONE]` lines give the two contents followed by one terminal frame |
| RelayFrames.FourLineChunk | src/pages/api/getanswer.ts:99 | four `data: ` lines joined by newlines are read back as those four lines |
| RelayFrames.HelloThereStream | src/pages/api/getanswer.ts:96-137 | "Hello", " there", `[DONE]` in one chunk reach the client as Hello, " there", then two terminal frames |
| RelayCompose.Truthy | src/pages/api/getanswer.ts:19-37 | the `!apiKey` and `imageUrl ?` tests: a value is truthy when present and not empty |
| RelayCompose.UserMessage | src/pages/api/getanswer.ts:37-56 | the user turn has the user role; when the image URL is truthy its content is the text part then the image part, and otherwise it is the plain text |
| RelayCompose.UserMessageRoundTrip | src/pages/api/getanswer.ts:37-56 | the typed text and the image URL (when truthy) can both be read back from the user turn |
| RelayCompose.PriorMessages | src/pages/api/getanswer.ts:30-34 | each prior turn keeps its role and content, one message per turn, in order |
| RelayCompose.ComposeMessages | src/pages/api/getanswer.ts:30-73 | the messages are the system prompt, then the prior turns in order (none when the history is missing), then the user turn |
| RelayCompose.TimestampsDropped | src/pages/api/getanswer.ts:30-34 | histories that agree on roles and contents give the same messages, whatever their timestamps |
| RelayCompose.OneSystemMessage | src/pages/api/getanswer.ts:65-73 | the prompt is the only system message unless a prior turn itself has the system role |
| RelayCompose.EndpointText | src/pages/api/getanswer.ts:27 | a template literal prints an undefined endpoint as `undefined` |
| RelayCompose.CompletionsUrl | src/pages/api/getanswer.ts:24-27 | the URL is the endpoint text followed by the fixed deployment and API-version path |
| RelayCompose.CompletionsUrlRoundTrip | src/pages/api/getanswer.ts:27 | the endpoint can be read back from the URL, so different endpoints give different URLs |
| RelayCompose.Handle | src/pages/api/getanswer.ts:12-155 | the request is sent exactly when the body was read and the key is truthy, with the composed messages and 1500 max tokens; an unreadable body, a missing key, a `fetch` that throws and a non-ok status each give status 500 with their message; an ok reply gives the relayed frames, or none when there is no body |
| RelayCompose.StreamAlwaysTerminated | src/pages/api/getanswer.ts:128-137 | an ok reply with a body gives a stream that ends with a terminal frame |
| RelayCompose.UpstreamFailureNoStream | src/pages/api/getanswer.ts:83-153 | a failed upstream call gives one status-500 error and no stream |
| ChatSession.CleanYoutubeUrl | src/pages/chatbot.tsx:271 | a cleaned link is no longer than the link received and contains no escaped ampersand; by `CleanYoutubeUrlIsReplacement`, `ReplaceAtFirstEscape` and `ReplaceWithoutEscapes` it is the link with each escaped ampersand turned into `&` and every other character kept |
| ChatSession.CleanYoutubeUrls | src/pages/chatbot.tsx:270-272 | each link is cleaned in its place, and the list keeps its length |
| ChatSession.BeforeFirst | src/pages/chatbot.tsx:271 | `split(sep)[0]` is a prefix of the text that holds no separator and is the whole text or is followed by the separator, so the cut falls at the first separator |
| ChatSession.ReplaceEscapedAmp | src/pages/chatbot.tsx:271 | the replacement never makes a link longer; `ReplaceAtFirstEscape` and `ReplaceWithoutEscapes` together fix its result for every link |
| ChatSession.TwoEscapesReplaced | src/pages/chatbot.tsx:271 | worked example: a link with two escaped ampersands gets both replaced, with the text between them kept |
| ChatSession.ReplaceAtFirstEscape | src/pages/chatbot.tsx:271 | the global replace keeps the escape-free text before the first escape, writes `&` for it, and carries on over the rest |
| ChatSession.ReplacedPrefixWasThere | src/pages/chatbot.tsx:271 | an `&`-free prefix of the replaced text was already a prefix of the original |
| ChatSession.NoEscapedAmpAfterReplace | src/pages/chatbot.tsx:271 | after the global replacement no escaped ampersand is left |
| ChatSession.BeforeFirstAbsent | src/pages/chatbot.tsx:271 | when the separator is absent, `split(sep)[0]` returns the whole text |
| ChatSession.CleanYoutubeUrlIsReplacement | src/pages/chatbot.tsx:270-272 | the `split` step never cuts anything, and a cleaned link contains no escaped ampersand |
| ChatSession.ReplaceWithoutEscapes | src/pages/chatbot.tsx:271 | a link without escaped ampersands is left unchanged |
| ChatSession.CleanYoutubeUrlsIdempotent | src/pages/chatbot.tsx:270-272 | cleaning an already cleaned list changes nothing |
| ChatSession.SymptomOf | src/pages/chatbot.tsx:400 | the saved `symptom_category`, or the empty text when there is none |
| ChatSession.Exchange | src/pages/chatbot.tsx:240-294 | the `try` block after the image is read posts the typed text and the user id; the conversation keeps its turns, gains the question next and at most one more turn; only the conversation, the streaming text, the image, its preview and the input change |
| ChatSession.SubmitOutcome | src/pages/chatbot.tsx:218-300 | a submit leaves the summary, symptom and drawer alone; when the input is not blank or an image is selected it ends not loading, not streaming and not uploading; when nothing is posted the conversation is unchanged |
| ChatSession.SubmitBlankIsNoOp | src/pages/chatbot.tsx:218-220 | whitespace-only input with no image changes nothing and posts nothing |
| ChatSession.SubmitEndsIdle | src/pages/chatbot.tsx:222-299 | a submit that starts idle ends idle, and the summary, symptom and drawer are left alone |
| ChatSession.SubmitAppendsOnly | src/pages/chatbot.tsx:245-286 | a submit keeps the existing conversation as a prefix and adds at most two turns |
| ChatSession.SubmitPostsTextOnly | src/pages/chatbot.tsx:218-261 | a post is made exactly when there is input or an image that could be read; it carries the typed text and the user id, never the image |
| ChatSession.SubmitAnswered | src/pages/chatbot.tsx:239-290 | an answer adds the question and the answer, with Google links and cleaned YouTube links, and clears the input, the streaming text and the image |
| ChatSession.SubmitFailed | src/pages/chatbot.tsx:226-294 | on failure the error text shows and the input and image are kept; the question stays shown unless reading the image failed, and no answer is added |
| ChatSession.Session.Submit | src/pages/chatbot.tsx:218-300 | `handleSubmit` leaves exactly the state and posted body given by `SubmitOutcome` |
| ChatSession.Session.Ask | src/pages/chatbot.tsx:240-294 | after the image is read, the question is shown and posted; then the answer with its links is shown and the input and image are cleared, or the error text is shown |
| ChatSession.Session.constructor | src/pages/chatbot.tsx:110-142 | the initial `useState` values |
| ChatSession.Session.TypeInput | src/pages/chatbot.tsx:302-304 | the input box holds what was typed |
| ChatSession.Session.SelectImage | src/pages/chatbot.tsx:144-154 | the chosen file and its preview are held |
| ChatSession.Session.RemoveSelectedImage | src/pages/chatbot.tsx:156-159 | no image and an empty preview |
| ChatSession.Session.SelectSymptom | src/pages/chatbot.tsx:516 | the symptom picker holds the chosen category |
| ChatSession.Session.OpenDrawer | src/pages/chatbot.tsx:602 | the history drawer is open |
| ChatSession.Session.Settle | src/pages/chatbot.tsx:295-299 | the `finally` block leaves the page idle |
| ChatSession.Session.NewChat | src/pages/chatbot.tsx:306-311 | a new chat has an empty conversation, input and summary, and the drawer is closed |
| ChatSession.Session.SelectHistoryEntry | src/pages/chatbot.tsx:387-404 | picking a saved exchange shows exactly its question and answer, stamped with its creation time, sets its symptom (or ""), clears the input and streaming text, stops streaming and closes the drawer |
| HospitalFinder.Glyph | src/components/hospital-finder.tsx:24-41 | every icon is one emoji code point, alone or followed by the variation selector U+FE0F |
| HospitalFinder.GlyphInjective | src/components/hospital-finder.tsx:24-41 | different icons show different emoji |
| HospitalFinder.NameOf | src/components/hospital-finder.tsx:21 | the `name: string = ''` default: a missing name is the empty text |
| HospitalFinder.HospitalIcon | src/components/hospital-finder.tsx:21 | a missing name gets the generic hospital icon |
| HospitalFinder.FirstMatchIsFirst | src/components/hospital-finder.tsx:23-38 | in the reference classifier, the first group that matches decides the icon |
| HospitalFinder.FirstMatchDefault | src/components/hospital-finder.tsx:39-40 | the reference classifier gives the generic icon exactly when no group matches |
| HospitalFinder.MentionsPair | src/components/hospital-finder.tsx:23 | testing a group means testing its two keywords with `includes` |
| HospitalFinder.HospitalIconIsFirstMatch | src/components/hospital-finder.tsx:21-42 | `getHospitalIcon` is the first-match classifier over the ordered keyword table, applied to the lower-cased name |
| HospitalFinder.HospitalIconPriority | src/components/hospital-finder.tsx:23-38 | when a group is the first to have a keyword in the lower-cased name, its icon is shown |
| HospitalFinder.HospitalIconDefault | src/components/hospital-finder.tsx:39-40 | the hospital icon is shown exactly when no keyword occurs |
| HospitalFinder.HospitalIconCaseInsensitive | src/components/hospital-finder.tsx:22-23 | two names that differ only in the case of their letters get the same icon |
| HospitalFinder.HospitalIconIgnoresCase | src/components/hospital-finder.tsx:22 | a name and its lower-cased form get the same icon |
| HospitalFinder.BabyIcon | src/components/hospital-finder.tsx:23-36 | the baby icon is shown for children or pediatric, or for maternity or women when no earlier group matches |
| HospitalFinder.CleanPhoneNumber | src/components/hospital-finder.tsx:47 | the cleaned number contains only digits and is no longer than the input |
| HospitalFinder.CleanPhoneNumberSingle | src/components/hospital-finder.tsx:47 | one character is kept when it is a digit and dropped otherwise |
| HospitalFinder.CleanPhoneNumberAppend | src/components/hospital-finder.tsx:47 | cleaning works piecewise, so the digits keep their original order |
| HospitalFinder.CleanPhoneNumberKeepsDigits | src/components/hospital-finder.tsx:47 | a number made only of digits is unchanged, so no digit is lost |
| HospitalFinder.CleanPhoneNumberIdempotent | src/components/hospital-finder.tsx:47 | cleaning twice equals cleaning once |
| HospitalFinder.PhoneCall | src/components/hospital-finder.tsx:45-62 | a mobile device dials a `tel:` link and any other device copies the number exactly as given |
| HospitalFinder.DialledDigits | src/components/hospital-finder.tsx:47-53 | the dialled link is `tel:` followed by the number's digits, in order |
| HospitalFinder.LocationErrorMessage | src/components/hospital-finder.tsx:156-169 | every error code maps to one of the four fixed messages |
| HospitalFinder.LocationErrorMessageDistinct | src/components/hospital-finder.tsx:156-169 | the denied, unavailable and timeout messages belong to codes 1, 2 and 3 exactly, and every other code gets the generic one |
| HospitalFinder.PlaceKey | src/components/hospital-finder.tsx:88 | a cache key is a present, non-empty `place_id` |
| HospitalFinder.DetailStep | src/components/hospital-finder.tsx:87-105 | a `getHospitalDetails` call adds at most the hospital's own `place_id`, keeps every key, and leaves every entry of the captured cache unchanged |
| HospitalFinder.DetailStepSkips | src/components/hospital-finder.tsx:88-97 | with no map, no `place_id`, an already cached id or a failed lookup, the cache is unchanged |
| HospitalFinder.DetailStepAddsOne | src/components/hospital-finder.tsx:97-101 | a successful lookup adds exactly its id, holding the details, and leaves every other entry unchanged |
| HospitalFinder.FillDetails | src/components/hospital-finder.tsx:129 | the `forEach` keeps every key of the cache, and every entry of the captured cache unchanged |
| HospitalFinder.FillDetailsEntry | src/components/hospital-finder.tsx:87-128 | after the `forEach`, a key is filled exactly when the map is loaded, some result has it, it was not in the captured cache and its lookup succeeds; it then holds that lookup, and every other entry is unchanged |
| HospitalFinder.FillDetailsKeepsEntries | src/components/hospital-finder.tsx:88-101 | the cache is fill-once: existing entries survive a search unchanged |
| HospitalFinder.FillDetailsNewEntries | src/components/hospital-finder.tsx:126-128 | a new entry exists exactly when its id is among the results and its lookup succeeded, and it holds that lookup's details |
| HospitalFinder.FillDetailsKeysUsable | src/components/hospital-finder.tsx:88 | the cache keys stay non-empty |
| HospitalFinder.Finder.constructor | src/components/hospital-finder.tsx:13-71 | the initial state, centred on India |
| HospitalFinder.Finder.OnLoad | src/components/hospital-finder.tsx:79-81 | the map is loaded |
| HospitalFinder.Finder.OnUnmount | src/components/hospital-finder.tsx:83-85 | the map is gone |
| HospitalFinder.Finder.SelectHospital | src/components/hospital-finder.tsx:263-343 | the selection is the clicked hospital, or none when the window is closed |
| HospitalFinder.Finder.GetHospitalDetails | src/components/hospital-finder.tsx:87-105 | `getHospitalDetails` performs exactly one `DetailStep` on the cache and keeps its keys non-empty |
| HospitalFinder.Finder.SearchNearbyHospitals | src/components/hospital-finder.tsx:107-135 | with no map nothing changes; otherwise it sends a 5000 m hospital search and ends not loading. An OK reply replaces the hospitals, clears the error and fills the cache for the results; a failed reply keeps the hospitals and the cache and shows the fixed message |
| HospitalFinder.Finder.GetUserLocation | src/components/hospital-finder.tsx:137-178 | without geolocation only the "not supported" message is set; otherwise loading ends, and a position replaces the location while an error shows the message for its code |

## Left out

- `JSON.parse`, and the reads of `choices[0]?.delta?.content` and `finish_reason`, are one
  function parameter, `parseJson`. A missing `choices` array counts as a parse failure,
  because the source's `catch` swallows the resulting TypeError. Non-string content is not
  modelled.
- `JSON.stringify` of the frames, `TextEncoder` and `TextDecoder`: frames are a datatype.
  Chunks are already decoded strings. A multi-byte character split across two chunks is not
  modelled.
- A `data: ` line that a chunk boundary cuts in two is not reassembled: each half is read as
  a line of its own chunk, so its content is lost (`RelayFrames.SplitLineLost`). The model
  follows the source here.
- RelayCompose.StreamAlwaysTerminated: assumes the provider's body ends normally. A body that
  errors mid-stream errors the pipe, `flush` is never called and no terminal frame is sent;
  stream errors are not modelled.
- `temperature`, `top_p` and the penalties of the provider request are fixed floating-point
  values and are not part of `Outbound`. Coordinates are `real`, not IEEE doubles.
- The provider's response headers (`text/event-stream`, no caching, keep-alive) are not
  modelled. A thrown value that is not an `Error` is not modelled: `fetch` and `req.json()`
  only throw `Error`s here.
- Text.Lower: models `toLowerCase` on ASCII letters only. Other Unicode case mappings are
  left out, so HospitalFinder.HospitalIcon is exact only for ASCII-cased keywords.
- The Supabase calls (`saveResponse`, `getHistory`), the history list and its loading flag
  are left out. `saveResponse` catches its own errors, so it does not change what
  `handleSubmit` leaves behind.
- `FileReader` becomes the `imageRead` flag. The data URL it produces is never sent, so it
  is not modelled.
- React's asynchronous state updates are left out. Each handler is modelled as if its awaits
  and callbacks ran to completion before anything else happens. Interleaved submits are not
  modelled.
- The `useEffect` hooks are not modelled: the history load on mount, the location request on
  mount, and the re-run of the search whenever the location or the search callback's
  identity changes.
- Rendering, toasts, `console` logging, `alert`, the clipboard, user-agent detection and
  `panTo` are left out. `PhoneCall` records which action is taken.
- The Maps places service and `navigator.geolocation` are left out. Their answers are the
  `lookup`, `reply` and `fix` parameters, and `lookup` is a function, so it is deterministic.
  In the source, two results with the same `place_id` both request details; with a
  deterministic lookup the cache ends up the same.
- HospitalFinder.Finder.SearchNearbyHospitals: a status other than OK, or a null result list,
  is one `SearchFailed` case.
- The auth guard (`if (!user)`) and the user object are left out. `userId` is a constant of
  the session.

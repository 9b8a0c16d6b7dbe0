/** The chat page's session state (src/pages/chatbot.tsx): the conversation shown, the input
    box, the streaming/loading flags, and what submitting a question, starting a new chat and
    picking a saved exchange do to them. The answer service, the history table and the file
    reader are outside; their results are parameters. */
module ChatSession {
  import opened Wrappers
  import opened Text

  datatype Role = User | Assistant

  /** Reference lists attached to an assistant turn. */
  datatype Links = Links(google: seq<string>, youtube: seq<string>)

  /** One turn of the conversation shown on screen. */
  datatype ConversationMessage = ConversationMessage(role: Role, content: string, timestamp: string, links: Option<Links>)

  /** A saved question/answer pair from the history table. */
  datatype ChatRecord = ChatRecord(id: string, message: string, response: string, createdAt: string,
                                   title: string, userId: string, symptomCategory: Option<string>)

  /** The JSON body posted to the answer service: the question text and the user id, nothing else. */
  datatype RequestBody = RequestBody(message: string, userId: string)

  /** What the answer service call ended in: a thrown network error, a non-ok status, an ok
      response whose JSON could not be read as an answer, or an answer. */
  datatype Reply =
    | NetworkError
    | HttpError
    | MalformedAnswer
    | Answer(answer: string, googleLinks: seq<string>, youtubeVideos: seq<string>)

  /** A file picked in the image input. */
  datatype ImageFile = ImageFile(name: string)

  const ErrorText: string := "An error occurred. Please try again later."

  // ---------------------------------------------------------------------------------------
  // YouTube URL cleaning

  /** The six characters backslash, `u`, `0`, `0`, `2`, `6`: an escaped ampersand left in a URL. */
  const EscapedAmp: string := "\\u0026"

  /** `s.replace(/\\u0026/g, '&')`: scanning left to right, every escaped ampersand becomes `&`. */
  function ReplaceEscapedAmp(s: string): (r: string)
    ensures |r| <= |s|
    decreases |s|
  {
    if StartsWith(s, EscapedAmp) then "&" + ReplaceEscapedAmp(s[|EscapedAmp|..])
    else if s == [] then []
    else [s[0]] + ReplaceEscapedAmp(s[1..])
  }

  /** `s.split(sep)[0]`: the text before the first occurrence of `sep`, or all of it. */
  function BeforeFirst(s: string, sep: string): (r: string)
    requires sep != []
    ensures StartsWith(s, r)
    ensures r == s || StartsWith(s[|r|..], sep)
    ensures !Contains(r, sep)
    decreases |s|
  {
    if StartsWith(s, sep) || s == [] then [] else [s[0]] + BeforeFirst(s[1..], sep)
  }

  /** One YouTube link as the page stores it: no longer than the link received, and free of
      escaped ampersands. */
  function CleanYoutubeUrl(url: string): (cleaned: string)
    ensures |cleaned| <= |url|
    ensures !Contains(cleaned, EscapedAmp)
  {
    NoEscapedAmpAfterReplace(url);
    BeforeFirstAbsent(ReplaceEscapedAmp(url), EscapedAmp);
    BeforeFirst(ReplaceEscapedAmp(url), EscapedAmp)
  }

  /** `youtube_videos.map(url => url.replace(/\\u0026/g, '&').split('\\u0026')[0])` */
  function CleanYoutubeUrls(urls: seq<string>): (cleaned: seq<string>)
    ensures |cleaned| == |urls|
    ensures forall i :: 0 <= i < |urls| ==> cleaned[i] == CleanYoutubeUrl(urls[i])
    decreases |urls|
  {
    if urls == [] then [] else [CleanYoutubeUrl(urls[0])] + CleanYoutubeUrls(urls[1..])
  }

  /** A prefix that holds no `&` survives the replacement only if it was there before. */
  lemma {:induction false} ReplacedPrefixWasThere(t: string, w: string)
    requires '&' !in w && StartsWith(ReplaceEscapedAmp(t), w)
    ensures StartsWith(t, w)
    decreases |w|
  {
    if w != [] {
      var r := ReplaceEscapedAmp(t);
      assert r[0] == w[0];
      assert !StartsWith(t, EscapedAmp);
      {
        assert t != [];
        assert r == [t[0]] + ReplaceEscapedAmp(t[1..]);
        assert StartsWith(ReplaceEscapedAmp(t[1..]), w[1..]) by {
          assert r[1..] == ReplaceEscapedAmp(t[1..]);
          assert r[1..][..|w| - 1] == r[..|w|][1..];
        }
        ReplacedPrefixWasThere(t[1..], w[1..]);
        assert t[..|w|] == [t[0]] + t[1..][..|w| - 1];
      }
    }
  }

  /** After the replacement no escaped ampersand is left: the `&` it writes cannot be part of
      one, and the left-to-right scan leaves none in the text it copies. */
  lemma {:induction false} NoEscapedAmpAfterReplace(s: string)
    ensures !Contains(ReplaceEscapedAmp(s), EscapedAmp)
    decreases |s|
  {
    var r := ReplaceEscapedAmp(s);
    if s == [] {
    } else if StartsWith(s, EscapedAmp) {
      NoEscapedAmpAfterReplace(s[|EscapedAmp|..]);
      assert r[1..] == ReplaceEscapedAmp(s[|EscapedAmp|..]);
      assert !StartsWith(r, EscapedAmp) by { assert r[0] == '&'; }
    } else {
      var rest := ReplaceEscapedAmp(s[1..]);
      NoEscapedAmpAfterReplace(s[1..]);
      assert r[1..] == rest;
      if StartsWith(r, EscapedAmp) {
        assert StartsWith(rest, EscapedAmp[1..]) by {
          assert rest[..|EscapedAmp| - 1] == r[..|EscapedAmp|][1..];
        }
        ReplacedPrefixWasThere(s[1..], EscapedAmp[1..]);
        assert false;
      }
    }
  }

  /** Splitting on a separator that does not occur returns the whole text. */
  lemma {:induction false} BeforeFirstAbsent(s: string, sep: string)
    requires sep != [] && !Contains(s, sep)
    ensures BeforeFirst(s, sep) == s
    decreases |s|
  {
    if s != [] {
      BeforeFirstAbsent(s[1..], sep);
    }
  }

  /** The `split(...)[0]` step never cuts anything: a cleaned link is the replaced link, and it
      holds no escaped ampersand. */
  lemma CleanYoutubeUrlIsReplacement(url: string)
    ensures CleanYoutubeUrl(url) == ReplaceEscapedAmp(url)
    ensures !Contains(CleanYoutubeUrl(url), EscapedAmp)
  {
    NoEscapedAmpAfterReplace(url);
    BeforeFirstAbsent(ReplaceEscapedAmp(url), EscapedAmp);
  }

  /** A link without escaped ampersands is kept as it is. */
  lemma {:induction false} ReplaceWithoutEscapes(s: string)
    requires !Contains(s, EscapedAmp)
    ensures ReplaceEscapedAmp(s) == s
    decreases |s|
  {
    if s != [] {
      ReplaceWithoutEscapes(s[1..]);
    }
  }

  /** An escape that starts inside the escape-free text before it is impossible: only the
      first of the six characters is a backslash. */
  lemma NoEscapeAcrossBoundary(a: string, b: string)
    requires a != [] && !Contains(a, EscapedAmp)
    ensures !StartsWith(a + EscapedAmp + b, EscapedAmp)
  {
    var s := a + EscapedAmp + b;
    if |a| >= |EscapedAmp| {
      assert s[..|EscapedAmp|] == a[..|EscapedAmp|];
    } else {
      assert s[|a|] == '\\' != EscapedAmp[|a|];
      assert s[..|EscapedAmp|][|a|] != EscapedAmp[|a|];
    }
  }

  /** The global replacement turns the first escape into `&`, keeps the text before it and
      carries on after it; with `ReplaceWithoutEscapes` this fixes the result for every link. */
  lemma {:induction false} ReplaceAtFirstEscape(a: string, b: string)
    requires !Contains(a, EscapedAmp)
    ensures ReplaceEscapedAmp(a + EscapedAmp + b) == a + "&" + ReplaceEscapedAmp(b)
    decreases |a|
  {
    var s := a + EscapedAmp + b;
    if a == [] {
      assert s == EscapedAmp + b;
      assert s[|EscapedAmp|..] == b;
    } else {
      NoEscapeAcrossBoundary(a, b);
      assert s[0] == a[0];
      assert s[1..] == a[1..] + EscapedAmp + b;
      assert !Contains(a[1..], EscapedAmp);
      ReplaceAtFirstEscape(a[1..], b);
      assert a == [a[0]] + a[1..];
    }
  }

  /** Both escapes of `a\u0026b\u0026c` are replaced and the letters between them kept. */
  lemma TwoEscapesReplaced()
    ensures ReplaceEscapedAmp("a" + EscapedAmp + "b" + EscapedAmp + "c") == "a&b&c"
  {
    assert !Contains("c", EscapedAmp);
    ReplaceWithoutEscapes("c");
    assert !Contains("b", EscapedAmp);
    ReplaceAtFirstEscape("b", "c");
    assert !Contains("a", EscapedAmp);
    assert "a" + EscapedAmp + "b" + EscapedAmp + "c" == "a" + EscapedAmp + ("b" + EscapedAmp + "c");
    ReplaceAtFirstEscape("a", "b" + EscapedAmp + "c");
  }

  /** Cleaning is idempotent: cleaning a cleaned list changes nothing. */
  lemma CleanYoutubeUrlsIdempotent(urls: seq<string>)
    ensures CleanYoutubeUrls(CleanYoutubeUrls(urls)) == CleanYoutubeUrls(urls)
  {
    var once := CleanYoutubeUrls(urls);
    forall i | 0 <= i < |urls| ensures CleanYoutubeUrl(once[i]) == once[i] {
      CleanYoutubeUrlIsReplacement(urls[i]);
      ReplaceWithoutEscapes(once[i]);
      CleanYoutubeUrlIsReplacement(once[i]);
    }
  }

  // ---------------------------------------------------------------------------------------
  // The session

  /** `symptom_category || ""` */
  function SymptomOf(chat: ChatRecord): string {
    match chat.symptomCategory
    case Some(c) => c
    case None => ""
  }

  /** Everything the page keeps in state for the conversation, as one value. */
  datatype SessionView = SessionView(
    inputText: string,
    summary: string,
    loading: bool,
    isStreaming: bool,
    streamingMessage: string,
    uploadingImage: bool,
    conversation: seq<ConversationMessage>,
    selectedImage: Option<ImageFile>,
    imagePreviewUrl: string,
    selectedSymptom: string,
    drawerOpen: bool)
  {
    /** No request is in flight. */
    predicate Idle() {
      !loading && !isStreaming && !uploadingImage
    }
  }

  /** The `try` block of `handleSubmit` once the image, if any, has been read: the question is
      shown and posted; then the answer is shown with its links and the input and image are
      cleared, or the error text is shown. */
  function Exchange(v: SessionView, userId: string, reply: Reply,
                    userStamp: string, assistantStamp: string): (out: (SessionView, RequestBody))
    ensures out.1 == RequestBody(v.inputText, userId)
    ensures |v.conversation| < |out.0.conversation| <= |v.conversation| + 2
    ensures out.0.conversation[..|v.conversation| + 1]
      == v.conversation + [ConversationMessage(User, v.inputText, userStamp, None)]
    ensures out.0.(conversation := v.conversation, streamingMessage := v.streamingMessage,
                   selectedImage := v.selectedImage, imagePreviewUrl := v.imagePreviewUrl,
                   inputText := v.inputText) == v
  {
    var asked := v.conversation + [ConversationMessage(User, v.inputText, userStamp, None)];
    var body := RequestBody(v.inputText, userId);
    match reply
    case Answer(answer, google, youtube) =>
      var links := Links(google, CleanYoutubeUrls(youtube));
      (v.(conversation := asked + [ConversationMessage(Assistant, answer, assistantStamp, Some(links))],
          streamingMessage := "", selectedImage := None, imagePreviewUrl := "", inputText := ""), body)
    case _ =>
      (v.(conversation := asked, streamingMessage := ErrorText), body)
  }

  /** What `handleSubmit` leaves behind, and the body it posts (if any), from the state it
      starts in. `imageRead` says whether reading the selected image succeeded, `reply` what the
      answer service call ended in, and the stamps are the two `new Date()` values. */
  function SubmitOutcome(v: SessionView, userId: string, imageRead: bool, reply: Reply,
                         userStamp: string, assistantStamp: string): (out: (SessionView, Option<RequestBody>))
    ensures out.0.summary == v.summary && out.0.selectedSymptom == v.selectedSymptom
    ensures out.0.drawerOpen == v.drawerOpen
    ensures !(IsBlank(v.inputText) && v.selectedImage.None?) ==> !out.0.loading && !out.0.isStreaming && !out.0.uploadingImage
    ensures out.1.None? ==> out.0.conversation == v.conversation
  {
    if IsBlank(v.inputText) && v.selectedImage.None? then (v, None)
    else if v.selectedImage.Some? && !imageRead then
      (v.(streamingMessage := ErrorText, loading := false, isStreaming := false, uploadingImage := false), None)
    else
      var started := v.(loading := true, isStreaming := true, streamingMessage := "", uploadingImage := false);
      var (w, body) := Exchange(started, userId, reply, userStamp, assistantStamp);
      (w.(loading := false, isStreaming := false, uploadingImage := false), Some(body))
  }

  /** Whitespace-only input with no image selected changes nothing and posts nothing. */
  lemma SubmitBlankIsNoOp(v: SessionView, userId: string, imageRead: bool, reply: Reply, s1: string, s2: string)
    requires IsBlank(v.inputText) && v.selectedImage.None?
    ensures SubmitOutcome(v, userId, imageRead, reply, s1, s2) == (v, None)
  {
  }

  /** Every submit that starts idle ends idle, and leaves the summary, the symptom and the
      drawer alone. */
  lemma SubmitEndsIdle(v: SessionView, userId: string, imageRead: bool, reply: Reply, s1: string, s2: string)
    requires v.Idle()
    ensures var (w, _) := SubmitOutcome(v, userId, imageRead, reply, s1, s2);
      w.Idle() && w.summary == v.summary && w.selectedSymptom == v.selectedSymptom && w.drawerOpen == v.drawerOpen
  {
  }

  /** The conversation is append-only during a turn: what was shown stays shown, and at most
      two turns are added. */
  lemma SubmitAppendsOnly(v: SessionView, userId: string, imageRead: bool, reply: Reply, s1: string, s2: string)
    ensures var (w, _) := SubmitOutcome(v, userId, imageRead, reply, s1, s2);
      |v.conversation| <= |w.conversation| <= |v.conversation| + 2
      && w.conversation[..|v.conversation|] == v.conversation
  {
  }

  /** A post happens exactly when the input is not blank or an image is selected, and the image
      (if any) was read; it carries the question text and the user id only, never the image. */
  lemma SubmitPostsTextOnly(v: SessionView, userId: string, imageRead: bool, reply: Reply, s1: string, s2: string)
    ensures var (_, sent) := SubmitOutcome(v, userId, imageRead, reply, s1, s2);
      && (sent.Some? <==> !(IsBlank(v.inputText) && v.selectedImage.None?) && (v.selectedImage.None? || imageRead))
      && (sent.Some? ==> sent.value == RequestBody(v.inputText, userId))
  {
  }

  /** A successful turn grows the conversation by exactly two turns, the question then the
      answer with its links (YouTube links cleaned), and clears the input, the streaming text
      and the image. */
  lemma SubmitAnswered(v: SessionView, userId: string, imageRead: bool, answer: string,
                       google: seq<string>, youtube: seq<string>, s1: string, s2: string)
    requires !(IsBlank(v.inputText) && v.selectedImage.None?) && (v.selectedImage.None? || imageRead)
    ensures var (w, _) := SubmitOutcome(v, userId, imageRead, Answer(answer, google, youtube), s1, s2);
      && |w.conversation| == |v.conversation| + 2
      && w.conversation[|v.conversation|] == ConversationMessage(User, v.inputText, s1, None)
      && w.conversation[|v.conversation| + 1]
         == ConversationMessage(Assistant, answer, s2, Some(Links(google, CleanYoutubeUrls(youtube))))
      && w.inputText == "" && w.streamingMessage == "" && w.selectedImage.None? && w.imagePreviewUrl == ""
  {
  }

  /** When the call fails the question stays shown, no answer is added, the input and image are
      kept, and the error text shows; when reading the image fails not even the question is
      added. */
  lemma SubmitFailed(v: SessionView, userId: string, imageRead: bool, reply: Reply, s1: string, s2: string)
    requires !(IsBlank(v.inputText) && v.selectedImage.None?)
    requires !reply.Answer? || (v.selectedImage.Some? && !imageRead)
    ensures var (w, _) := SubmitOutcome(v, userId, imageRead, reply, s1, s2);
      && w.conversation == (if v.selectedImage.Some? && !imageRead then v.conversation
                            else v.conversation + [ConversationMessage(User, v.inputText, s1, None)])
      && w.streamingMessage == ErrorText
      && w.inputText == v.inputText && w.selectedImage == v.selectedImage
  {
  }

  class Session {
    /** The signed-in user's id. */
    const userId: string

    var inputText: string
    var summary: string
    var loading: bool
    var isStreaming: bool
    var streamingMessage: string
    var uploadingImage: bool
    var conversation: seq<ConversationMessage>
    var selectedImage: Option<ImageFile>
    var imagePreviewUrl: string
    var selectedSymptom: string
    var drawerOpen: bool

    /** No request is in flight. Every handler returns in this state. */
    ghost predicate Idle()
      reads this
    {
      View().Idle()
    }

    /** The state as one value. */
    ghost function View(): SessionView
      reads this
    {
      SessionView(inputText, summary, loading, isStreaming, streamingMessage, uploadingImage,
                  conversation, selectedImage, imagePreviewUrl, selectedSymptom, drawerOpen)
    }

    /** The initial `useState` values. */
    constructor (userId: string)
      ensures this.userId == userId && Idle()
      ensures inputText == "" && summary == "" && streamingMessage == "" && conversation == []
      ensures selectedImage == None && imagePreviewUrl == "" && selectedSymptom == "" && !drawerOpen
    {
      this.userId := userId;
      inputText, summary, streamingMessage := "", "", "";
      loading, isStreaming, uploadingImage := false, false, false;
      conversation := [];
      selectedImage, imagePreviewUrl := None, "";
      selectedSymptom := "";
      drawerOpen := false;
    }

    /** `handleInputChange`: the input box shows what was typed. */
    method TypeInput(text: string)
      modifies this`inputText
      ensures inputText == text
    {
      inputText := text;
    }

    /** `handleImageSelect`, once the preview has been read as a data URL. */
    method SelectImage(file: ImageFile, previewUrl: string)
      modifies this`selectedImage, this`imagePreviewUrl
      ensures selectedImage == Some(file) && imagePreviewUrl == previewUrl
    {
      selectedImage := Some(file);
      imagePreviewUrl := previewUrl;
    }

    /** `removeSelectedImage` */
    method RemoveSelectedImage()
      modifies this`selectedImage, this`imagePreviewUrl
      ensures selectedImage == None && imagePreviewUrl == ""
    {
      selectedImage := None;
      imagePreviewUrl := "";
    }

    /** The symptom-category picker. */
    method SelectSymptom(category: string)
      modifies this`selectedSymptom
      ensures selectedSymptom == category
    {
      selectedSymptom := category;
    }

    /** `onOpen` of the history drawer. */
    method OpenDrawer()
      modifies this`drawerOpen
      ensures drawerOpen
    {
      drawerOpen := true;
    }

    /** `handleSubmit`, see `SubmitOutcome` and the lemmas after it. */
    method Submit(imageRead: bool, reply: Reply, userStamp: string, assistantStamp: string)
      returns (sent: Option<RequestBody>)
      modifies this`inputText, this`loading, this`isStreaming, this`streamingMessage, this`uploadingImage
      modifies this`conversation, this`selectedImage, this`imagePreviewUrl
      ensures (View(), sent) == SubmitOutcome(old(View()), userId, imageRead, reply, userStamp, assistantStamp)
    {
      sent := None;
      if IsBlank(inputText) && selectedImage.None? {
        return;
      }
      loading := true;
      isStreaming := true;
      streamingMessage := "";
      // try
      if selectedImage.Some? {
        uploadingImage := true;
      }
      if selectedImage.Some? && !imageRead {
        // catch: the image could not be read
        streamingMessage := ErrorText;
      } else {
        uploadingImage := false;
        var body := Ask(reply, userStamp, assistantStamp);
        sent := Some(body);
      }
      // finally
      Settle();
    }

    /** The rest of the `try` block of `handleSubmit`, see `Exchange`. */
    method Ask(reply: Reply, userStamp: string, assistantStamp: string) returns (body: RequestBody)
      modifies this`conversation, this`streamingMessage, this`selectedImage, this`imagePreviewUrl, this`inputText
      ensures (View(), body) == Exchange(old(View()), userId, reply, userStamp, assistantStamp)
    {
      var question := inputText;
      conversation := conversation + [ConversationMessage(User, question, userStamp, None)];
      body := RequestBody(question, userId);
      match reply {
        case Answer(answer, googleLinks, youtubeVideos) =>
          var youtube := CleanYoutubeUrls(youtubeVideos);
          conversation := conversation
            + [ConversationMessage(Assistant, answer, assistantStamp, Some(Links(googleLinks, youtube)))];
          streamingMessage := "";
          RemoveSelectedImage();
          inputText := "";
        case _ =>
          // catch
          streamingMessage := ErrorText;
      }
    }

    /** The `finally` block of `handleSubmit`. */
    method Settle()
      modifies this`loading, this`isStreaming, this`uploadingImage
      ensures Idle()
    {
      loading := false;
      isStreaming := false;
      uploadingImage := false;
    }

    /** `handleNewChat`: an empty conversation, empty input and summary, drawer closed. */
    method NewChat()
      modifies this`inputText, this`summary, this`conversation, this`drawerOpen
      ensures conversation == [] && inputText == "" && summary == "" && !drawerOpen
    {
      inputText := "";
      summary := "";
      conversation := [];
      drawerOpen := false;
    }

    /** Clicking a saved exchange in the history list: the conversation becomes exactly that
        question and its answer, both stamped with the record's creation time. */
    method SelectHistoryEntry(chat: ChatRecord)
      modifies this`conversation, this`selectedSymptom, this`inputText, this`streamingMessage,
               this`isStreaming, this`drawerOpen
      ensures conversation == [ConversationMessage(User, chat.message, chat.createdAt, None),
                               ConversationMessage(Assistant, chat.response, chat.createdAt, None)]
      ensures selectedSymptom == SymptomOf(chat)
      ensures inputText == "" && streamingMessage == "" && !isStreaming && !drawerOpen
    {
      conversation := [ConversationMessage(User, chat.message, chat.createdAt, None),
                       ConversationMessage(Assistant, chat.response, chat.createdAt, None)];
      selectedSymptom := SymptomOf(chat);
      inputText := "";
      streamingMessage := "";
      isStreaming := false;
      drawerOpen := false;
    }
  }
}

/** The re-framing stage of the chat relay: the `TransformStream` whose `transform` turns each
    upstream chunk of provider event-stream text into simplified frames and whose `flush`
    appends a final terminal frame. The event-stream format is the one of section 9.2
    (Server-sent events) of the WHATWG HTML Living Standard, of which only a small subset is
    read here: one `data: ` field per line, no multi-line events, no other fields. */
module RelayFrames {
  import opened Text

  /** What `JSON.parse(data)` followed by `json.choices[0]?.delta?.content || ""` and
      `json.choices[0]?.finish_reason === "stop"` yields for one payload. `Unparsable` covers a
      payload that is not JSON and one whose `choices` field is missing (reading `[0]` of it
      throws inside the same `try`). A falsy content reads as "". */
  datatype JsonChoice = Unparsable | Choice(content: string, finishStop: bool)

  /** The three kinds of `data: ` payload the transform tells apart. */
  datatype Payload = DonePayload | Parsed(content: string, finishStop: bool) | Malformed

  /** One frame sent downstream: `data: {"content":…}\n\n` or `data: [DONE]\n\n`. */
  datatype Frame = ContentFrame(content: string) | DoneFrame

  const DataPrefix: string := "data: "
  const DoneSentinel: string := "[DONE]"

  /** Classifies the text after `data: `: the literal sentinel first, then the JSON reading. */
  function ClassifyPayload(data: string, parseJson: string -> JsonChoice): (p: Payload)
    ensures p.DonePayload? <==> data == DoneSentinel
    ensures p.Malformed? <==> data != DoneSentinel && parseJson(data).Unparsable?
    ensures p.Parsed? ==> parseJson(data) == Choice(p.content, p.finishStop)
  {
    if data == DoneSentinel then DonePayload
    else match parseJson(data)
      case Unparsable => Malformed
      case Choice(c, stop) => Parsed(c, stop)
  }

  /** What handling one line does: the frames it enqueues, and whether `transform` then
      returns (abandoning the rest of its chunk). */
  datatype Step = Step(frames: seq<Frame>, stop: bool)

  /** The body of the `for` loop of `transform` for one line. */
  function LineStep(line: string, parseJson: string -> JsonChoice): (st: Step)
    ensures |st.frames| <= 2
    ensures !StartsWith(line, DataPrefix) ==> st == Step([], false)
  {
    if !StartsWith(line, DataPrefix) then Step([], false)
    else match ClassifyPayload(line[|DataPrefix|..], parseJson)
      case DonePayload => Step([DoneFrame], true)
      case Malformed => Step([], false)
      case Parsed(c, stop) =>
        Step((if c != "" then [ContentFrame(c)] else []) + (if stop then [DoneFrame] else []), stop)
  }

  /** What one line can enqueue: at most one content frame, never empty, and the terminal
      frame exactly when the loop returns, as the last frame. Lines without the `data: `
      prefix enqueue nothing. */
  lemma LineStepShape(line: string, parseJson: string -> JsonChoice)
    ensures var st := LineStep(line, parseJson);
      && (st.stop <==> DoneFrame in st.frames)
      && multiset(st.frames)[DoneFrame] == (if st.stop then 1 else 0)
      && (st.stop ==> st.frames[|st.frames| - 1] == DoneFrame)
      && (forall i :: 0 <= i < |st.frames| - 1 ==> st.frames[i].ContentFrame?)
      && (forall f <- st.frames :: f.ContentFrame? ==> f.content != "")
      && (!StartsWith(line, DataPrefix) ==> st == Step([], false))
  {
  }

  /** A line after which `transform` returns. */
  predicate Terminal(line: string, parseJson: string -> JsonChoice) {
    LineStep(line, parseJson).stop
  }

  /** A line that enqueues nothing and lets the loop go on. */
  predicate Inert(line: string, parseJson: string -> JsonChoice) {
    LineStep(line, parseJson) == Step([], false)
  }

  predicate NoTerminal(lines: seq<string>, parseJson: string -> JsonChoice) {
    forall l <- lines :: !Terminal(l, parseJson)
  }

  /** The frames the `for` loop enqueues for a list of lines. */
  function LinesFrames(lines: seq<string>, parseJson: string -> JsonChoice): (frames: seq<Frame>)
    ensures |frames| <= 2 * |lines|
    decreases |lines|
  {
    if lines == [] then []
    else
      var st := LineStep(lines[0], parseJson);
      if st.stop then st.frames else st.frames + LinesFrames(lines[1..], parseJson)
  }

  /** `text.split("\n").filter((line) => line.trim() !== "")` */
  function ChunkLines(chunk: string): (lines: seq<string>)
    ensures '\n' !in chunk ==> lines == if IsBlank(chunk) then [] else [chunk]
  {
    if '\n' !in chunk then
      SplitOnNoSeparator(chunk, '\n');
      NonBlankSingle(chunk);
      NonBlank(SplitOn(chunk, '\n'))
    else
      NonBlank(SplitOn(chunk, '\n'))
  }

  /** The lines a chunk is read as hold no newline and are not blank. */
  lemma ChunkLinesShape(chunk: string)
    ensures forall l <- ChunkLines(chunk) :: !IsBlank(l) && '\n' !in l
  {
    SplitOnPieces(chunk, '\n');
    NonBlankPieces(SplitOn(chunk, '\n'));
  }

  /** The frames `transform` enqueues for one chunk. */
  function ChunkFrames(chunk: string, parseJson: string -> JsonChoice): (frames: seq<Frame>)
    ensures multiset(frames)[DoneFrame] <= 1
    ensures DoneFrame in frames ==> frames[|frames| - 1] == DoneFrame
  {
    ChunkTerminalFrame(ChunkLines(chunk), parseJson);
    LinesFrames(ChunkLines(chunk), parseJson)
  }

  /** The frames of all chunks, one `transform` call per chunk in arrival order. */
  function ChunksFrames(chunks: seq<string>, parseJson: string -> JsonChoice): (frames: seq<Frame>)
    ensures multiset(frames)[DoneFrame] <= |chunks|
    decreases |chunks|
  {
    if chunks == [] then []
    else ChunksFrames(chunks[..|chunks| - 1], parseJson) + ChunkFrames(chunks[|chunks| - 1], parseJson)
  }

  /** Everything the relay sends downstream for an upstream body: the transformed chunks,
      then the frame `flush` appends. */
  function StreamFrames(chunks: seq<string>, parseJson: string -> JsonChoice): (out: seq<Frame>)
    ensures |out| >= 1 && out[|out| - 1] == DoneFrame
  {
    ChunksFrames(chunks, parseJson) + [DoneFrame]
  }

  /** One more line of a list: its step, then (unless it stops) the rest. */
  lemma UnfoldLinesFrames(lines: seq<string>, i: nat, parseJson: string -> JsonChoice)
    requires i < |lines|
    ensures var st := LineStep(lines[i], parseJson);
      LinesFrames(lines[i..], parseJson)
      == if st.stop then st.frames else st.frames + LinesFrames(lines[i + 1..], parseJson)
  {
    assert lines[i..][0] == lines[i] && lines[i..][1..] == lines[i + 1..];
  }

  /** One pass of the `for` loop of `transform`: the frames enqueued for `line`, and whether
      the loop body executes `return`. */
  method TransformLine(line: string, parseJson: string -> JsonChoice) returns (queued: seq<Frame>, stop: bool)
    ensures Step(queued, stop) == LineStep(line, parseJson)
  {
    queued, stop := [], false;
    if StartsWith(line, DataPrefix) {
      var data := line[|DataPrefix|..];
      if data == DoneSentinel {
        queued := queued + [DoneFrame];
        stop := true;
        return;
      }
      match parseJson(data)
      case Unparsable =>
        return;
      case Choice(content, finishStop) =>
        if content != "" {
          queued := queued + [ContentFrame(content)];
        }
        if finishStop {
          queued := queued + [DoneFrame];
          stop := true;
          return;
        }
    }
  }

  /** A newline between two pieces of text cuts their lines apart: the lines of `x + "\n" + y`
      are the lines of `x` followed by the lines of `y`. */
  lemma ChunkLinesConcat(x: string, y: string)
    ensures ChunkLines(x + "\n" + y) == ChunkLines(x) + ChunkLines(y)
  {
    assert x + "\n" + y == x + ['\n'] + y;
    SplitOnConcat(x, y, '\n');
    NonBlankAppend(SplitOn(x, '\n'), SplitOn(y, '\n'));
    assert ChunkLines(x) == NonBlank(SplitOn(x, '\n'));
    assert ChunkLines(y) == NonBlank(SplitOn(y, '\n'));
    assert ChunkLines(x + "\n" + y) == NonBlank(SplitOn(x + "\n" + y, '\n'));
  }

  /** `transform(chunk, controller)`: splits the chunk into its non-blank lines and runs the
      `for` loop over them. */
  method Transform(chunk: string, parseJson: string -> JsonChoice) returns (queued: seq<Frame>)
    ensures queued == ChunkFrames(chunk, parseJson)
  {
    var lines := ChunkLines(chunk);
    queued := TransformLines(lines, parseJson);
  }

  /** The `for` loop of `transform`: enqueues the frames of each line in turn, returning early
      on a terminal line. */
  method TransformLines(lines: seq<string>, parseJson: string -> JsonChoice) returns (queued: seq<Frame>)
    ensures queued == LinesFrames(lines, parseJson)
  {
    queued := [];
    var i := 0;
    while i < |lines|
      invariant 0 <= i <= |lines|
      invariant LinesFrames(lines, parseJson) == queued + LinesFrames(lines[i..], parseJson)
    {
      var more, stop := TransformLine(lines[i], parseJson);
      UnfoldLinesFrames(lines, i, parseJson);
      if stop {
        queued := queued + more;
        return;
      }
      assert queued + LinesFrames(lines[i..], parseJson) == (queued + more) + LinesFrames(lines[i + 1..], parseJson);
      queued := queued + more;
      i := i + 1;
    }
    assert lines[i..] == [];
  }

  /** `flush(controller)`: one final terminal frame. */
  method Flush() returns (queued: seq<Frame>)
    ensures queued == [DoneFrame]
  {
    queued := [DoneFrame];
  }

  /** The whole pipe: every chunk through `transform`, in order, then `flush`. */
  method Relay(chunks: seq<string>, parseJson: string -> JsonChoice) returns (out: seq<Frame>)
    ensures out == StreamFrames(chunks, parseJson)
  {
    out := [];
    var i := 0;
    while i < |chunks|
      invariant 0 <= i <= |chunks|
      invariant out == ChunksFrames(chunks[..i], parseJson)
    {
      var queued := Transform(chunks[i], parseJson);
      assert chunks[..i + 1][..i] == chunks[..i];
      out := out + queued;
      i := i + 1;
    }
    assert chunks[..i] == chunks;
    var last := Flush();
    out := out + last;
  }

  // ---------------------------------------------------------------------------------------
  // Properties of one chunk

  lemma NoTerminalCons(lines: seq<string>, parseJson: string -> JsonChoice)
    requires lines != []
    ensures NoTerminal(lines, parseJson) <==> !Terminal(lines[0], parseJson) && NoTerminal(lines[1..], parseJson)
  {
    assert lines == [lines[0]] + lines[1..];
  }

  /** Lines before the first terminal line are handled one after another: processing `a + b`
      where no line of `a` stops the chunk is processing `a`, then `b`. */
  lemma {:induction false} LinesFramesAppend(a: seq<string>, b: seq<string>, parseJson: string -> JsonChoice)
    requires NoTerminal(a, parseJson)
    ensures LinesFrames(a + b, parseJson) == LinesFrames(a, parseJson) + LinesFrames(b, parseJson)
    decreases |a|
  {
    if a == [] {
      assert a + b == b;
    } else {
      NoTerminalCons(a, parseJson);
      var st := LineStep(a[0], parseJson);
      assert (a + b)[0] == a[0] && (a + b)[1..] == a[1..] + b;
      LinesFramesAppend(a[1..], b, parseJson);
      calc {
        LinesFrames(a + b, parseJson);
        st.frames + LinesFrames(a[1..] + b, parseJson);
        st.frames + (LinesFrames(a[1..], parseJson) + LinesFrames(b, parseJson));
        (st.frames + LinesFrames(a[1..], parseJson)) + LinesFrames(b, parseJson);
      }
    }
  }

  /** A terminal line ends the chunk: nothing after it is looked at. */
  lemma TerminalLineCutsChunk(a: seq<string>, line: string, b: seq<string>, parseJson: string -> JsonChoice)
    requires NoTerminal(a, parseJson) && Terminal(line, parseJson)
    ensures LinesFrames(a + [line] + b, parseJson) == LinesFrames(a, parseJson) + LineStep(line, parseJson).frames
  {
    LinesFramesAppend(a, [line] + b, parseJson);
    assert a + [line] + b == a + ([line] + b);
  }

  /** Which lines enqueue nothing and let the loop go on: those without the `data: ` prefix,
      those whose payload fails to parse, and parsed payloads with empty content that do not
      finish. */
  lemma InertLineCases(line: string, parseJson: string -> JsonChoice)
    ensures Inert(line, parseJson) <==>
      !StartsWith(line, DataPrefix)
      || (line[|DataPrefix|..] != DoneSentinel
          && parseJson(line[|DataPrefix|..]) in {Unparsable, Choice("", false)})
  {
  }

  /** An inert line can be inserted anywhere in a chunk without changing its frames. */
  lemma {:induction false} InertLineInvisible(a: seq<string>, line: string, b: seq<string>, parseJson: string -> JsonChoice)
    requires Inert(line, parseJson)
    ensures LinesFrames(a + [line] + b, parseJson) == LinesFrames(a + b, parseJson)
    decreases |a|
  {
    if a == [] {
      assert a + [line] + b == [line] + b && ([line] + b)[1..] == b;
      assert a + b == b;
    } else {
      assert (a + [line] + b)[0] == a[0] && (a + [line] + b)[1..] == a[1..] + [line] + b;
      assert (a + b)[0] == a[0] && (a + b)[1..] == a[1..] + b;
      InertLineInvisible(a[1..], line, b, parseJson);
    }
  }

  /** A `data: [DONE]` line enqueues exactly the terminal frame and no later line of the same
      chunk produces output. */
  lemma DoneLineEndsChunk(a: seq<string>, b: seq<string>, parseJson: string -> JsonChoice)
    requires NoTerminal(a, parseJson)
    ensures LinesFrames(a + [DataPrefix + DoneSentinel] + b, parseJson) == LinesFrames(a, parseJson) + [DoneFrame]
  {
    var line := DataPrefix + DoneSentinel;
    assert line[..|DataPrefix|] == DataPrefix && line[|DataPrefix|..] == DoneSentinel;
    TerminalLineCutsChunk(a, line, b, parseJson);
  }

  /** The frames of a parsed payload: its content frame when the content is non-empty, then
      the terminal frame when `finish_reason` is "stop". */
  function ChoiceFrames(c: string, stop: bool): seq<Frame> {
    (if c != "" then [ContentFrame(c)] else []) + (if stop then [DoneFrame] else [])
  }

  lemma ChoiceLineStep(payload: string, parseJson: string -> JsonChoice)
    requires payload != DoneSentinel && parseJson(payload).Choice?
    ensures LineStep(DataPrefix + payload, parseJson)
      == Step(ChoiceFrames(parseJson(payload).content, parseJson(payload).finishStop), parseJson(payload).finishStop)
  {
    var line := DataPrefix + payload;
    assert line[..|DataPrefix|] == DataPrefix && line[|DataPrefix|..] == payload;
  }

  /** A parsed payload with `finish_reason === "stop"` enqueues its content frame (if the
      content is non-empty), then the terminal frame, and the rest of the chunk is skipped. */
  lemma StopChoiceEndsChunk(a: seq<string>, payload: string, b: seq<string>, parseJson: string -> JsonChoice)
    requires NoTerminal(a, parseJson)
    requires payload != DoneSentinel && parseJson(payload).Choice? && parseJson(payload).finishStop
    ensures LinesFrames(a + [DataPrefix + payload] + b, parseJson)
      == LinesFrames(a, parseJson) + ChoiceFrames(parseJson(payload).content, true)
  {
    ChoiceLineStep(payload, parseJson);
    TerminalLineCutsChunk(a, DataPrefix + payload, b, parseJson);
  }

  /** A parsed payload that does not finish enqueues its content frame exactly when the content
      is non-empty, and the loop goes on with the next line. */
  lemma ContinuingChoiceFrames(a: seq<string>, payload: string, b: seq<string>, parseJson: string -> JsonChoice)
    requires NoTerminal(a, parseJson)
    requires payload != DoneSentinel && parseJson(payload).Choice? && !parseJson(payload).finishStop
    ensures LinesFrames(a + [DataPrefix + payload] + b, parseJson)
      == LinesFrames(a, parseJson) + ChoiceFrames(parseJson(payload).content, false) + LinesFrames(b, parseJson)
  {
    ChoiceLineStep(payload, parseJson);
    ContinuingLineFrames(a, DataPrefix + payload, b, parseJson);
  }

  /** A line that does not stop the chunk contributes its frames between those of the lines
      before it and those of the lines after it. */
  lemma ContinuingLineFrames(a: seq<string>, line: string, b: seq<string>, parseJson: string -> JsonChoice)
    requires NoTerminal(a, parseJson) && !Terminal(line, parseJson)
    ensures LinesFrames(a + [line] + b, parseJson)
      == LinesFrames(a, parseJson) + LineStep(line, parseJson).frames + LinesFrames(b, parseJson)
  {
    LinesFramesAppend(a, [line] + b, parseJson);
    assert a + [line] + b == a + ([line] + b);
    assert ([line] + b)[0] == line && ([line] + b)[1..] == b;
  }

  /** Within one chunk the terminal frame appears at most once, exactly when some line is
      terminal, and then as the last frame. */
  lemma ChunkTerminalFrame(lines: seq<string>, parseJson: string -> JsonChoice)
    ensures multiset(LinesFrames(lines, parseJson))[DoneFrame] == if NoTerminal(lines, parseJson) then 0 else 1
    ensures !NoTerminal(lines, parseJson) ==>
      |LinesFrames(lines, parseJson)| > 0 && LinesFrames(lines, parseJson)[|LinesFrames(lines, parseJson)| - 1] == DoneFrame
  {
    ChunkTerminalCount(lines, parseJson);
    if !NoTerminal(lines, parseJson) {
      ChunkTerminalLast(lines, parseJson);
    }
  }

  lemma {:induction false} ChunkTerminalCount(lines: seq<string>, parseJson: string -> JsonChoice)
    ensures multiset(LinesFrames(lines, parseJson))[DoneFrame] == if NoTerminal(lines, parseJson) then 0 else 1
    decreases |lines|
  {
    if lines != [] {
      var st := LineStep(lines[0], parseJson);
      var all := LinesFrames(lines, parseJson);
      LineStepShape(lines[0], parseJson);
      NoTerminalCons(lines, parseJson);
      if st.stop {
        assert all == st.frames;
      } else {
        ChunkTerminalCount(lines[1..], parseJson);
        var rest := LinesFrames(lines[1..], parseJson);
        assert all == st.frames + rest;
        assert multiset(all) == multiset(st.frames) + multiset(rest);
      }
    }
  }

  lemma StopStepEndsWithDone(line: string, parseJson: string -> JsonChoice)
    requires LineStep(line, parseJson).stop
    ensures |LineStep(line, parseJson).frames| > 0
    ensures LineStep(line, parseJson).frames[|LineStep(line, parseJson).frames| - 1] == DoneFrame
  {
    LineStepShape(line, parseJson);
  }

  lemma {:induction false} ChunkTerminalLast(lines: seq<string>, parseJson: string -> JsonChoice)
    requires !NoTerminal(lines, parseJson)
    ensures |LinesFrames(lines, parseJson)| > 0
    ensures LinesFrames(lines, parseJson)[|LinesFrames(lines, parseJson)| - 1] == DoneFrame
    decreases |lines|
  {
    var st := LineStep(lines[0], parseJson);
    var all := LinesFrames(lines, parseJson);
    NoTerminalCons(lines, parseJson);
    if st.stop {
      StopStepEndsWithDone(lines[0], parseJson);
      assert all == st.frames;
    } else {
      ChunkTerminalLast(lines[1..], parseJson);
      var rest := LinesFrames(lines[1..], parseJson);
      assert all == st.frames + rest;
      assert all[|all| - 1] == rest[|rest| - 1];
    }
  }

  /** The contents of the content frames, in order. */
  function ContentsOf(frames: seq<Frame>): (cs: seq<string>)
    ensures |cs| <= |frames|
    decreases |frames|
  {
    if frames == [] then []
    else (if frames[0].ContentFrame? then [frames[0].content] else []) + ContentsOf(frames[1..])
  }

  lemma {:induction false} ContentsOfAppend(f: seq<Frame>, g: seq<Frame>)
    ensures ContentsOf(f + g) == ContentsOf(f) + ContentsOf(g)
    decreases |f|
  {
    if f == [] {
      assert f + g == g;
    } else {
      assert (f + g)[0] == f[0] && (f + g)[1..] == f[1..] + g;
      ContentsOfAppend(f[1..], g);
    }
  }

  /** The content a line contributes when read on its own: the non-empty content of a parsed
      `data: ` payload. */
  function LineContent(line: string, parseJson: string -> JsonChoice): (cs: seq<string>)
    ensures |cs| <= 1
  {
    if StartsWith(line, DataPrefix) then
      match ClassifyPayload(line[|DataPrefix|..], parseJson)
      case Parsed(c, _) => if c != "" then [c] else []
      case _ => []
    else []
  }

  /** Reference reading of a list of lines, ignoring every early return: the non-empty
      contents of all parsed `data: ` payloads, in upstream order. */
  function DeliverableContents(lines: seq<string>, parseJson: string -> JsonChoice): seq<string>
    decreases |lines|
  {
    if lines == [] then [] else LineContent(lines[0], parseJson) + DeliverableContents(lines[1..], parseJson)
  }

  lemma LineStepContents(line: string, parseJson: string -> JsonChoice)
    ensures ContentsOf(LineStep(line, parseJson).frames) == LineContent(line, parseJson)
  {
    var fs := LineStep(line, parseJson).frames;
    if |fs| == 2 {
      assert fs == [fs[0]] + [fs[1]];
      ContentsOfAppend([fs[0]], [fs[1]]);
    }
  }

  /** Content frames keep the upstream order: the contents a chunk delivers are a prefix of the
      non-empty parsed contents of its lines, and all of them when no line is terminal. */
  lemma {:induction false} ChunkContentsInOrder(lines: seq<string>, parseJson: string -> JsonChoice)
    ensures ContentsOf(LinesFrames(lines, parseJson)) <= DeliverableContents(lines, parseJson)
    ensures NoTerminal(lines, parseJson) ==>
      ContentsOf(LinesFrames(lines, parseJson)) == DeliverableContents(lines, parseJson)
    decreases |lines|
  {
    if lines != [] {
      var st := LineStep(lines[0], parseJson);
      LineStepContents(lines[0], parseJson);
      NoTerminalCons(lines, parseJson);
      var here := LineContent(lines[0], parseJson);
      var rest := DeliverableContents(lines[1..], parseJson);
      if st.stop {
        assert ContentsOf(LinesFrames(lines, parseJson)) == here;
      } else {
        ChunkContentsInOrder(lines[1..], parseJson);
        ContentsOfAppend(st.frames, LinesFrames(lines[1..], parseJson));
        assert ContentsOf(LinesFrames(lines, parseJson)) == here + ContentsOf(LinesFrames(lines[1..], parseJson));
      }
    }
  }

  // ---------------------------------------------------------------------------------------
  // Properties of the whole stream

  /** A chunk that `transform` leaves through a `return`. */
  predicate ChunkTerminated(chunk: string, parseJson: string -> JsonChoice) {
    !NoTerminal(ChunkLines(chunk), parseJson)
  }

  /** How many chunks were cut short by a terminal line. */
  function TerminatedChunks(chunks: seq<string>, parseJson: string -> JsonChoice): nat
    decreases |chunks|
  {
    if chunks == [] then 0
    else TerminatedChunks(chunks[..|chunks| - 1], parseJson)
         + (if ChunkTerminated(chunks[|chunks| - 1], parseJson) then 1 else 0)
  }

  lemma {:induction false} ChunksTerminalFrames(chunks: seq<string>, parseJson: string -> JsonChoice)
    ensures multiset(ChunksFrames(chunks, parseJson))[DoneFrame] == TerminatedChunks(chunks, parseJson)
    decreases |chunks|
  {
    if chunks != [] {
      var init := chunks[..|chunks| - 1];
      ChunksTerminalFrames(init, parseJson);
      ChunkTerminalFrame(ChunkLines(chunks[|chunks| - 1]), parseJson);
      assert multiset(ChunksFrames(chunks, parseJson))
        == multiset(ChunksFrames(init, parseJson)) + multiset(ChunkFrames(chunks[|chunks| - 1], parseJson));
    }
  }

  /** `flush` adds one terminal frame to the one of every chunk that was cut short, so the
      stream carries exactly one terminal frame more than there were terminated chunks. */
  lemma StreamTerminalFrames(chunks: seq<string>, parseJson: string -> JsonChoice)
    ensures multiset(StreamFrames(chunks, parseJson))[DoneFrame] == 1 + TerminatedChunks(chunks, parseJson)
  {
    ChunksTerminalFrames(chunks, parseJson);
    assert multiset(StreamFrames(chunks, parseJson))
      == multiset(ChunksFrames(chunks, parseJson)) + multiset([DoneFrame]);
  }

  lemma {:induction false} TerminatedChunkCounted(chunks: seq<string>, k: nat, parseJson: string -> JsonChoice)
    requires k < |chunks| && ChunkTerminated(chunks[k], parseJson)
    ensures TerminatedChunks(chunks, parseJson) >= 1
    decreases |chunks|
  {
    if k < |chunks| - 1 {
      TerminatedChunkCounted(chunks[..|chunks| - 1], k, parseJson);
    }
  }

  /** An upstream stop (a `[DONE]` payload or `finish_reason === "stop"`) yields a terminal
      frame of its own, and `flush` still appends another: at least two terminal frames. */
  lemma UpstreamStopGivesTwoTerminalFrames(chunks: seq<string>, k: nat, parseJson: string -> JsonChoice)
    requires k < |chunks| && ChunkTerminated(chunks[k], parseJson)
    ensures multiset(StreamFrames(chunks, parseJson))[DoneFrame] >= 2
  {
    StreamTerminalFrames(chunks, parseJson);
    TerminatedChunkCounted(chunks, k, parseJson);
  }

  /** When no chunk is cut short, the only terminal frame is the one `flush` appends, last. */
  lemma {:induction false} SingleTerminalFrameWithoutUpstreamStop(chunks: seq<string>, parseJson: string -> JsonChoice)
    requires forall c <- chunks :: !ChunkTerminated(c, parseJson)
    ensures DoneFrame !in ChunksFrames(chunks, parseJson)
    ensures multiset(StreamFrames(chunks, parseJson))[DoneFrame] == 1
    decreases |chunks|
  {
    if chunks != [] {
      var init := chunks[..|chunks| - 1];
      assert forall c <- init :: c in chunks;
      assert chunks[|chunks| - 1] in chunks;
      SingleTerminalFrameWithoutUpstreamStop(init, parseJson);
      ChunkTerminalFrame(ChunkLines(chunks[|chunks| - 1]), parseJson);
    }
    ChunksTerminalFrames(chunks, parseJson);
    StreamTerminalFrames(chunks, parseJson);
  }

  /** The non-blank lines of all chunks, in arrival order. */
  function AllLines(chunks: seq<string>): seq<string>
    decreases |chunks|
  {
    if chunks == [] then [] else AllLines(chunks[..|chunks| - 1]) + ChunkLines(chunks[|chunks| - 1])
  }

  /** When no chunk is cut short, chunk boundaries do not matter: the stream is the frames of
      all lines read as one list, then the flushed terminal frame. */
  lemma {:induction false} ChunkBoundariesInvisible(chunks: seq<string>, parseJson: string -> JsonChoice)
    requires forall c <- chunks :: !ChunkTerminated(c, parseJson)
    ensures NoTerminal(AllLines(chunks), parseJson)
    ensures ChunksFrames(chunks, parseJson) == LinesFrames(AllLines(chunks), parseJson)
    decreases |chunks|
  {
    if chunks != [] {
      var init := chunks[..|chunks| - 1];
      var last := ChunkLines(chunks[|chunks| - 1]);
      assert forall c <- init :: c in chunks;
      assert chunks[|chunks| - 1] in chunks;
      ChunkBoundariesInvisible(init, parseJson);
      LinesFramesAppend(AllLines(init), last, parseJson);
    }
  }

  /** Content frames reach the client in upstream order: without an upstream stop, the stream's
      contents are exactly the non-empty parsed contents of all lines, in order. */
  lemma StreamContentsInOrder(chunks: seq<string>, parseJson: string -> JsonChoice)
    requires forall c <- chunks :: !ChunkTerminated(c, parseJson)
    ensures ContentsOf(StreamFrames(chunks, parseJson)) == DeliverableContents(AllLines(chunks), parseJson)
  {
    ChunkBoundariesInvisible(chunks, parseJson);
    ChunkContentsInOrder(AllLines(chunks), parseJson);
    ContentsOfAppend(ChunksFrames(chunks, parseJson), [DoneFrame]);
    assert ContentsOf([DoneFrame]) == [];
  }

  // ---------------------------------------------------------------------------------------
  // Worked streams

  /** A one-line chunk holding `data: ` and a payload without a newline. */
  lemma DataChunkLines(payload: string)
    requires '\n' !in payload
    ensures !IsBlank(DataPrefix + payload) && '\n' !in DataPrefix + payload
    ensures ChunkLines(DataPrefix + payload) == [DataPrefix + payload]
  {
    var line := DataPrefix + payload;
    assert '\n' !in line by {
      assert forall i :: 0 <= i < |line| ==> line[i] == (if i < 6 then DataPrefix[i] else payload[i - 6]);
    }
    SplitOnNoSeparator(line, '\n');
    assert !IsJsWhitespace(line[0]);
    NonBlankKeepsAll([line]);
  }

  lemma LinesFramesCons(line: string, rest: seq<string>, parseJson: string -> JsonChoice)
    ensures LinesFrames([line] + rest, parseJson)
      == if LineStep(line, parseJson).stop then LineStep(line, parseJson).frames
         else LineStep(line, parseJson).frames + LinesFrames(rest, parseJson)
  {
    assert ([line] + rest)[1..] == rest;
  }

  /** A chunk holding one `data: ` line is handled as that line. */
  lemma DataChunkFrames(payload: string, parseJson: string -> JsonChoice)
    requires '\n' !in payload
    ensures ChunkFrames(DataPrefix + payload, parseJson) == LineStep(DataPrefix + payload, parseJson).frames
  {
    DataChunkLines(payload);
    LinesFramesCons(DataPrefix + payload, [], parseJson);
    assert [DataPrefix + payload] + [] == [DataPrefix + payload];
  }

  lemma DoneLineStep(parseJson: string -> JsonChoice)
    ensures LineStep(DataPrefix + DoneSentinel, parseJson) == Step([DoneFrame], true)
  {
    var line := DataPrefix + DoneSentinel;
    assert line[..|DataPrefix|] == DataPrefix && line[|DataPrefix|..] == DoneSentinel;
  }

  lemma MalformedLineInert(payload: string, parseJson: string -> JsonChoice)
    requires payload != DoneSentinel && parseJson(payload) == Unparsable
    ensures Inert(DataPrefix + payload, parseJson)
  {
    var line := DataPrefix + payload;
    assert line[..|DataPrefix|] == DataPrefix && line[|DataPrefix|..] == payload;
  }

  /** A body of one chunk: that chunk's frames, then the flushed terminal frame. */
  lemma OneChunkStream(c: string, parseJson: string -> JsonChoice)
    ensures StreamFrames([c], parseJson) == ChunkFrames(c, parseJson) + [DoneFrame]
  {
    var one := [c];
    assert one[..|one| - 1] == [] && one[|one| - 1] == c;
    assert ChunksFrames(one, parseJson) == ChunksFrames([], parseJson) + ChunkFrames(c, parseJson);
  }

  lemma TwoChunkStream(c1: string, c2: string, parseJson: string -> JsonChoice)
    ensures StreamFrames([c1, c2], parseJson) == ChunkFrames(c1, parseJson) + ChunkFrames(c2, parseJson) + [DoneFrame]
  {
    var both, first := [c1, c2], [c1];
    assert both[..|both| - 1] == first && both[|both| - 1] == c2;
    assert first[..|first| - 1] == [] && first[|first| - 1] == c1;
    assert ChunksFrames(first, parseJson) == ChunkFrames(c1, parseJson);
    assert ChunksFrames(both, parseJson) == ChunksFrames(first, parseJson) + ChunkFrames(c2, parseJson);
  }

  /** The relay does not stop at an upstream `[DONE]`: content from a later chunk still goes
      out after the terminal frame, and `flush` adds a second terminal frame. */
  lemma ContentAfterTerminalFrame(payload: string, parseJson: string -> JsonChoice)
    requires '\n' !in payload && payload != DoneSentinel
    requires parseJson(payload) == Choice("late", false)
    ensures StreamFrames([DataPrefix + DoneSentinel, DataPrefix + payload], parseJson)
      == [DoneFrame, ContentFrame("late"), DoneFrame]
  {
    TwoChunkStream(DataPrefix + DoneSentinel, DataPrefix + payload, parseJson);
    DoneChunkFrames(parseJson);
    ContentChunkFrames(payload, "late", parseJson);
  }

  /** A chunk that is the line `data: [DONE]` enqueues one terminal frame. */
  lemma DoneChunkFrames(parseJson: string -> JsonChoice)
    ensures ChunkFrames(DataPrefix + DoneSentinel, parseJson) == [DoneFrame]
  {
    DataChunkFrames(DoneSentinel, parseJson);
    DoneLineStep(parseJson);
  }

  /** A chunk that is one `data: ` line with non-empty content and no stop enqueues that content. */
  lemma ContentChunkFrames(payload: string, c: string, parseJson: string -> JsonChoice)
    requires '\n' !in payload && payload != DoneSentinel && parseJson(payload) == Choice(c, false) && c != ""
    ensures ChunkFrames(DataPrefix + payload, parseJson) == [ContentFrame(c)]
  {
    DataChunkFrames(payload, parseJson);
    ChoiceLineStep(payload, parseJson);
  }

  /** Each chunk is split into lines on its own, so a line that the upstream body delivers
      cut in two is lost: `data: ` ends one chunk and the payload begins the next, the first
      half is an empty (unparsable) payload and the second half lacks the prefix. The same
      bytes in one chunk give the content. */
  lemma SplitLineLost(payload: string, c: string, parseJson: string -> JsonChoice)
    requires '\n' !in payload && !IsBlank(payload) && !StartsWith(payload, DataPrefix)
    requires payload != DoneSentinel && parseJson(payload) == Choice(c, false) && c != ""
    requires parseJson("").Unparsable?
    ensures StreamFrames([DataPrefix + payload], parseJson) == [ContentFrame(c), DoneFrame]
    ensures StreamFrames([DataPrefix, payload], parseJson) == [DoneFrame]
  {
    WholeDataLine(payload, c, parseJson);
    CutDataLine(payload, parseJson);
  }

  /** A `data: ` line with content, arriving as one chunk, reaches the client. */
  lemma WholeDataLine(payload: string, c: string, parseJson: string -> JsonChoice)
    requires '\n' !in payload && payload != DoneSentinel && parseJson(payload) == Choice(c, false) && c != ""
    ensures StreamFrames([DataPrefix + payload], parseJson) == [ContentFrame(c), DoneFrame]
  {
    OneChunkStream(DataPrefix + payload, parseJson);
    ContentChunkFrames(payload, c, parseJson);
  }

  /** A `data: ` line cut right after its prefix: both halves are inert. */
  lemma CutDataLine(payload: string, parseJson: string -> JsonChoice)
    requires '\n' !in payload && !StartsWith(payload, DataPrefix) && parseJson("").Unparsable?
    ensures StreamFrames([DataPrefix, payload], parseJson) == [DoneFrame]
  {
    TwoChunkStream(DataPrefix, payload, parseJson);
    MalformedLineInert("", parseJson);
    assert DataPrefix + "" == DataPrefix;
    InertChunkFrames(DataPrefix, parseJson);
    InertChunkFrames(payload, parseJson);
  }

  /** A chunk that is one inert line, without a newline, enqueues nothing. */
  lemma InertChunkFrames(c: string, parseJson: string -> JsonChoice)
    requires '\n' !in c && Inert(c, parseJson)
    ensures ChunkFrames(c, parseJson) == []
  {
    LinesFramesCons(c, [], parseJson);
    assert [c] + [] == [c];
  }

  /** Four lines read one after another: a content line, an inert line, another content line,
      a terminal line. */
  lemma FourLineFrames(l1: string, l2: string, l3: string, l4: string, c1: string, c3: string,
                       parseJson: string -> JsonChoice)
    requires LineStep(l1, parseJson) == Step([ContentFrame(c1)], false)
    requires Inert(l2, parseJson)
    requires LineStep(l3, parseJson) == Step([ContentFrame(c3)], false)
    requires LineStep(l4, parseJson) == Step([DoneFrame], true)
    ensures LinesFrames([l1, l2, l3, l4], parseJson) == [ContentFrame(c1), ContentFrame(c3), DoneFrame]
  {
    LinesFramesCons(l4, [], parseJson);
    LinesFramesCons(l3, [l4], parseJson);
    LinesFramesCons(l2, [l3, l4], parseJson);
    LinesFramesCons(l1, [l2, l3, l4], parseJson);
  }

  lemma FourLineChunk(p1: string, bad: string, p2: string)
    requires '\n' !in p1 && '\n' !in bad && '\n' !in p2
    ensures var lines := [DataPrefix + p1, DataPrefix + bad, DataPrefix + p2, DataPrefix + DoneSentinel];
      ChunkLines(Join(lines, '\n')) == lines
  {
    var lines := [DataPrefix + p1, DataPrefix + bad, DataPrefix + p2, DataPrefix + DoneSentinel];
    DataChunkLines(p1);
    DataChunkLines(bad);
    DataChunkLines(p2);
    DataChunkLines(DoneSentinel);
    SplitOnJoin(lines, '\n');
    NonBlankKeepsAll(lines);
  }

  /** Two content payloads, a malformed one between them, then `[DONE]`, all in one chunk:
      both contents go out in order, the malformed line is skipped silently, and the stream ends
      with the upstream terminal frame followed by the flushed one. */
  lemma HelloThereStream(p1: string, bad: string, p2: string, parseJson: string -> JsonChoice)
    requires '\n' !in p1 && '\n' !in bad && '\n' !in p2
    requires p1 != DoneSentinel && bad != DoneSentinel && p2 != DoneSentinel
    requires parseJson(p1) == Choice("Hello", false)
    requires parseJson(bad) == Unparsable
    requires parseJson(p2) == Choice(" there", false)
    ensures var chunk := Join([DataPrefix + p1, DataPrefix + bad, DataPrefix + p2, DataPrefix + DoneSentinel], '\n');
      StreamFrames([chunk], parseJson)
      == [ContentFrame("Hello"), ContentFrame(" there"), DoneFrame, DoneFrame]
  {
    FourLineChunk(p1, bad, p2);
    ChoiceLineStep(p1, parseJson);
    MalformedLineInert(bad, parseJson);
    ChoiceLineStep(p2, parseJson);
    DoneLineStep(parseJson);
    FourLineFrames(DataPrefix + p1, DataPrefix + bad, DataPrefix + p2, DataPrefix + DoneSentinel, "Hello", " there", parseJson);
    var lines := [DataPrefix + p1, DataPrefix + bad, DataPrefix + p2, DataPrefix + DoneSentinel];
    var chunk := Join(lines, '\n');
    OneChunkStream(chunk, parseJson);
    assert ChunkFrames(chunk, parseJson) == LinesFrames(lines, parseJson);
  }
}

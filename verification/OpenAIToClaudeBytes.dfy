/** From bytes to bytes: formatted upstream streams, cut anywhere by the network, through the OpenAI
    to Claude converter. */
module OpenAIToClaudeBytes {
  import opened Options
  import opened ClaudeEvents
  import opened OpenAIToClaudeConverter
  import S = OpenAIToClaude
  import Streams = OpenAIToClaudeStreams
  import opened Sse
  import opened Text

  function PayloadItem(p: Payload, rd: Reading): seq<S.Item> {
    match p
    case Done => [S.Done]
    case Data(text) => if rd.decode(text).None? then [] else [S.Data(rd.decode(text).value)]
  }

  function PayloadItems(ps: seq<Payload>, rd: Reading): seq<S.Item> {
    if ps == [] then [] else PayloadItem(ps[0], rd) + PayloadItems(ps[1..], rd)
  }

  lemma {:induction false} PayloadItemsAppend(a: seq<Payload>, b: seq<Payload>, rd: Reading)
    ensures PayloadItems(a + b, rd) == PayloadItems(a, rd) + PayloadItems(b, rd)
    decreases |a|
  {
    hide PayloadItem;
    if a == [] {
      assert a + b == b;
    } else {
      assert (a + b)[1..] == a[1..] + b;
      PayloadItemsAppend(a[1..], b, rd);
    }
  }

  // ---------------------------------------------------------------- the event named "done"

  /** The converter takes an event for the end marker by its name. */
  predicate Honest(e: SseEvent) {
    e.event == "done" <==> e.data.None?
  }

  predicate NamesDone(line: string) {
    HasPrefix(Trim(line), "event:") && Trim(Trim(line)[6..]) == "done"
  }

  predicate DoneData(line: string) {
    IsData(line) && Trim(Trim(line)[5..]) == "[DONE]"
  }

  /** A line that names `done` is followed by the end marker's data or by an empty line, and a data
      line by an empty one. */
  predicate Paired(lines: seq<string>) {
    forall k :: 0 <= k < |lines| - 1 ==>
      && (NamesDone(lines[k]) ==> lines[k + 1] == "" || DoneData(lines[k + 1]))
      && (IsData(lines[k]) ==> lines[k + 1] == "")
  }

  predicate AllHonest(events: seq<SseEvent>) {
    forall k :: 0 <= k < |events| ==> Honest(events[k])
  }

  /** With these lines to come, what the parser holds will not be reported under a false name. */
  predicate Ready(p: Parsing, lines: seq<string>) {
    && AllHonest(p.events)
    && (p.data != [] ==>
          |p.data| == 1 && (p.event == "done" ==> p.data == ["[DONE]"]) && (lines != [] ==> lines[0] == ""))
    && (p.data == [] && p.event == "done" && lines != [] ==> lines[0] == "" || DoneData(lines[0]))
  }

  lemma {:induction false} ReadyStep(p: Parsing, valid: string -> bool, lines: seq<string>)
    requires lines != [] && Ready(p, lines) && Paired(lines)
    ensures Ready(Step(p, valid, lines[0]), lines[1..]) && Paired(lines[1..])
  {
    hide Trim;
    assert Trim("") == "" by { TrimmedStays(""); }
    assert forall k :: 0 <= k < |lines| - 1 ==> lines[1..][k] == lines[k + 1];
  }

  lemma {:induction false} HonestSteps(p: Parsing, valid: string -> bool, lines: seq<string>)
    requires Ready(p, lines) && Paired(lines)
    ensures AllHonest(Steps(p, valid, lines).events)
    decreases |lines|
  {
    if lines == [] {
      assert AllHonest(p.events);
    } else {
      hide Step, Ready, Paired, AllHonest;
      ReadyStep(p, valid, lines);
      HonestSteps(Step(p, valid, lines[0]), valid, lines[1..]);
    }
  }

  lemma {:induction false} PairedParts(a: seq<string>, b: seq<string>)
    requires Paired(a + b)
    ensures Paired(a) && Paired(b)
  {
    hide NamesDone, DoneData, IsData;
    assert forall k :: 0 <= k < |a| ==> (a + b)[k] == a[k];
    assert forall k :: 0 <= k < |b| ==> (a + b)[|a| + k] == b[k];
  }

  lemma {:induction false} PairedAppend(a: seq<string>, b: seq<string>)
    requires Paired(a) && Paired(b) && (a != [] ==> a[|a| - 1] == "" || b == [""])
    ensures Paired(a + b)
  {
    hide NamesDone, DoneData, IsData;
    BlankNamesNothing();
    forall k | 0 <= k < |a + b| - 1
      ensures NamesDone((a + b)[k]) ==> (a + b)[k + 1] == "" || DoneData((a + b)[k + 1])
      ensures IsData((a + b)[k]) ==> (a + b)[k + 1] == ""
    {
      if k >= |a| {
        assert b[k - |a|] == (a + b)[k];
      } else {
        assert a[k] == (a + b)[k];
      }
    }
  }

  /** An unfinished last line has no say in the names. */
  lemma {:induction false} HonestParse(text: string, valid: string -> bool)
    requires Paired(Complete(text, '\n'))
    ensures AllHonest(Parse(text, valid).0)
  {
    var lines := Split(text, '\n');
    hide NamesDone, DoneData, IsData, Honest, Step, Steps, Split;
    if Rest(text, '\n') != "" {
      HonestSteps(START, valid, Complete(text, '\n'));
    } else {
      assert lines == Complete(text, '\n') + [""];
      PairedAppend(Complete(text, '\n'), [""]);
      HonestSteps(START, valid, lines);
    }
  }

  lemma {:induction false} BlankNamesNothing()
    ensures !NamesDone("") && !IsData("")
  {
    TrimmedStays("");
  }

  lemma {:induction false} HonestItems(events: seq<SseEvent>, rd: Reading)
    requires AllHonest(events)
    ensures ItemsOf(events, rd) == PayloadItems(Payloads(events), rd)
    decreases |events|
  {
    if events != [] {
      assert Honest(events[0]);
      HonestItems(events[1..], rd);
      assert Payloads(events)[1..] == Payloads(events[1..]);
    }
  }

  // ---------------------------------------------------------------- chunks

  /** The converter sees a cut stream through its payloads only. */
  lemma {:induction false} FeedsPayloads(s: S.State, buffer: string, chunks: seq<string>, rd: Reading, order: S.Order)
    requires Paired(Complete(buffer + Concat(chunks), '\n'))
    ensures TransformAll(s, buffer, chunks, rd, order)
         == S.Run(s, PayloadItems(Feed(buffer, chunks, rd.valid).0, rd), order)
    decreases |chunks|
  {
    hide Paired, Parse, S.Run, ItemsOf, PayloadItems, Payloads, Complete, Rest, AllHonest;
    if chunks == [] {
      assert PayloadItems([], rd) == [] by { NoPayloads(rd); }
      NoItems(s, order);
    } else {
      var text, rest := buffer + chunks[0], Concat(chunks[1..]);
      assert buffer + Concat(chunks) == text + rest;
      SplitAtCut(text, rest, '\n');
      var (events, left) := Parse(text, rd.valid);
      ParseRest(text, rd.valid);
      PairedParts(Complete(text, '\n'), Complete(left + rest, '\n'));
      HonestParse(text, rd.valid);
      HonestItems(events, rd);
      var s1 := S.Run(s, ItemsOf(events, rd), order);
      FeedsPayloads(s1, left, chunks[1..], rd, order);
      var more := Feed(left, chunks[1..], rd.valid).0;
      PayloadItemsAppend(Payloads(events), more, rd);
      RunAppend(s, PayloadItems(Payloads(events), rd), PayloadItems(more, rd), order);
    }
  }

  lemma {:induction false} NoPayloads(rd: Reading)
    ensures PayloadItems([], rd) == []
  {
  }

  lemma {:induction false} ParseRest(text: string, valid: string -> bool)
    ensures Parse(text, valid).1 == Rest(text, '\n')
  {
  }

  // ---------------------------------------------------------------- formatted streams

  /** A frame with the converter's name for the end marker is the end marker. */
  predicate Truthful(f: Frame) {
    Trim(f.event) == "done" ==> Trim(f.data) == "[DONE]"
  }

  function FrameItem(f: Frame, rd: Reading): seq<S.Item> {
    var d := Trim(f.data);
    if d == "[DONE]" then [S.Done]
    else if rd.valid(d) && rd.decode(d).Some? then [S.Data(rd.decode(d).value)]
    else []
  }

  function FrameItems(frames: seq<Frame>, rd: Reading): seq<S.Item> {
    if frames == [] then [] else FrameItem(frames[0], rd) + FrameItems(frames[1..], rd)
  }

  lemma {:induction false} StreamItems(frames: seq<Frame>, rd: Reading)
    ensures PayloadItems(Payloads(StreamEvents(frames, rd.valid)), rd) == FrameItems(frames, rd)
    decreases |frames|
  {
    hide Trim, PayloadItem;
    if frames != [] {
      var first, rest := FrameEvents(frames[0], rd.valid), StreamEvents(frames[1..], rd.valid);
      PayloadsAppend(first, rest);
      PayloadItemsAppend(Payloads(first), Payloads(rest), rd);
      OneFrame(frames[0], rd);
      StreamItems(frames[1..], rd);
    }
  }

  lemma {:induction false} OneFrame(f: Frame, rd: Reading)
    ensures PayloadItems(Payloads(FrameEvents(f, rd.valid)), rd) == FrameItem(f, rd)
  {
    hide Trim;
    var ps := Payloads(FrameEvents(f, rd.valid));
    assert ps == [] || (|ps| == 1 && ps[1..] == []);
    if ps != [] {
      assert PayloadItem(ps[0], rd) + [] == PayloadItem(ps[0], rd);
    }
  }

  lemma {:induction false} FramePaired(f: Frame)
    requires Truthful(f)
    ensures Paired(FrameLines(f)) && FrameLines(f)[|FrameLines(f)| - 1] == ""
  {
    hide Trim;
    FieldLine("event:", f.event);
    FieldLine("data:", f.data);
    assert "event:" + " " + f.event == "event: " + f.event;
    assert "data:" + " " + f.data == "data: " + f.data;
    BlankNamesNothing();
  }

  lemma {:induction false} StreamPaired(frames: seq<Frame>)
    requires forall f :: f in frames ==> OneLine(f) && Truthful(f)
    ensures Paired(Split(StreamText(frames), '\n'))
    decreases |frames|
  {
    hide FormatSSE, FrameLines, Truthful, OneLine;
    if frames != [] {
      hide Paired;
      StreamPaired(frames[1..]);
      FramePaired(frames[0]);
      FrameSplit(frames[0], StreamText(frames[1..]));
      PairedAppend(FrameLines(frames[0]), Split(StreamText(frames[1..]), '\n'));
    }
  }

  /** However the network cuts a formatted upstream stream, the converter writes what it writes
      for the frames taken one by one. */
  lemma {:induction false} CutsDoNotMatter(frames: seq<Frame>, chunks: seq<string>, rd: Reading, order: S.Order)
    requires forall f :: f in frames ==> OneLine(f) && Truthful(f)
    requires Concat(chunks) == StreamText(frames)
    ensures TransformAll(S.INITIAL_STATE, "", chunks, rd, order)
         == S.Run(S.INITIAL_STATE, FrameItems(frames, rd), order)
  {
    hide Split, S.Run, PayloadItems, Payloads, Paired, StreamEvents, FrameItems, TransformAll, Feed;
    hide Truthful, OneLine;
    var text := StreamText(frames);
    StreamPaired(frames);
    var lines := Split(text, '\n');
    assert lines == Complete(text, '\n') + [lines[|lines| - 1]];
    PairedParts(Complete(text, '\n'), [lines[|lines| - 1]]);
    assert "" + Concat(chunks) == text;
    FeedsPayloads(S.INITIAL_STATE, "", chunks, rd, order);
    FormattedSurvivesCutting(frames, chunks, rd.valid);
    StreamItems(frames, rd);
  }

  // ---------------------------------------------------------------- exactly which frames

  function Deltas(log: seq<Event>): nat {
    if log == [] then 0 else Deltas(log[..|log| - 1]) + if log[|log| - 1].BlockDelta? then 1 else 0
  }

  lemma {:induction false} DeltasEmit(s: S.State, e: Event)
    ensures Deltas(S.Emit(s, e).log) == Deltas(s.log) + if e.BlockDelta? then 1 else 0
  {
    assert (s.log + [e])[..|s.log|] == s.log;
  }

  const A_WORD := S.Chunk("m", "", [S.Choice(Some(S.Piece("", "a", [])), "")])

  /** Every text is a chunk with one word. */
  const ALL_WORDS := Reading(text => true, text => Some(A_WORD))

  const NO_ORDER: S.Order := (n, all) => []

  predicate Words(items: seq<S.Item>) {
    forall item :: item in items ==> item == S.Done || item == S.Data(A_WORD)
  }

  function DataItems(items: seq<S.Item>): nat {
    if items == [] then 0 else DataItems(items[1..]) + if items[0].Data? then 1 else 0
  }

  lemma {:induction false} StepDeltas(s: S.State, item: S.Item)
    requires item == S.Done || item == S.Data(A_WORD)
    ensures Deltas(S.Step(s, item, NO_ORDER).log) == Deltas(s.log) + if item.Data? then 1 else 0
  {
    hide Deltas;
    assert Trim("") == "" by { TrimmedStays(""); }
    hide Trim;
    match item
    case Done =>
      if s.messageId != "" {
        var s1 := if s.block != S.NoBlock then S.StopBlock(s) else s;
        DeltasEmit(s, BlockStop(s.index));
        DeltasEmit(s1, MessageDelta(S.StopName(s.stopReason)));
        DeltasEmit(S.Emit(s1, MessageDelta(S.StopName(s.stopReason))), MessageStop);
      }
    case Data(chunk) =>
      DeltasEmit(s.(messageId := "m"), MessageStart("m", ""));
      var s1 := S.StartMessage(s, A_WORD);
      DeltasEmit(s1, BlockStop(s1.index));
      var s2 := if s1.block != S.NoBlock && s1.block != S.InText then S.StopBlock(s1) else s1;
      DeltasEmit(s2, BlockStart(s2.index, TextBlock));
      var s3 := if s2.block != S.InText then S.Emit(s2, BlockStart(s2.index, TextBlock)).(block := S.InText) else s2;
      DeltasEmit(s3, BlockDelta(s3.index, TextDelta("a")));
      assert S.HandlePiece(s1, S.Piece("", "a", [])) == S.Speak(s1, S.InText, TextBlock, TextDelta("a"));
  }

  lemma {:induction false} RunDeltas(s: S.State, items: seq<S.Item>)
    requires Words(items)
    ensures Deltas(S.Run(s, items, NO_ORDER).log) == Deltas(s.log) + DataItems(items)
    decreases |items|
  {
    hide Deltas, S.Step;
    if items != [] {
      assert items[0] in items && forall item :: item in items[1..] ==> item in items;
      StepDeltas(s, items[0]);
      RunDeltas(S.Step(s, items[0], NO_ORDER), items[1..]);
    }
  }

  lemma {:induction false} WholeFrame(f: Frame)
    ensures var events := FrameEvents(f, ALL_WORDS.valid);
            && |events| == 1 && FrameItem(f, ALL_WORDS) == [if Trim(f.data) == "[DONE]" then S.Done else S.Data(A_WORD)]
            && ItemOf(events[0], ALL_WORDS)
               == [if Trim(f.data) == "[DONE]" || !Truthful(f) then S.Done else S.Data(A_WORD)]
  {
    hide Trim;
  }

  /** Read whole, a frame that bears the name is taken for the end marker whatever it holds. */
  lemma {:induction false} WholeFrames(frames: seq<Frame>)
    ensures var items := ItemsOf(StreamEvents(frames, ALL_WORDS.valid), ALL_WORDS);
            && Words(items) && Words(FrameItems(frames, ALL_WORDS))
            && DataItems(items) <= DataItems(FrameItems(frames, ALL_WORDS))
            && ((exists f :: f in frames && !Truthful(f)) ==>
                  DataItems(items) < DataItems(FrameItems(frames, ALL_WORDS)))
    decreases |frames|
  {
    hide Trim, Truthful, FrameEvents, ItemOf, FrameItem;
    if frames != [] {
      var rest := frames[1..];
      WholeFrames(rest);
      WholeFrame(frames[0]);
      var events, more := FrameEvents(frames[0], ALL_WORDS.valid), StreamEvents(rest, ALL_WORDS.valid);
      assert (events + more)[0] == events[0] && (events + more)[1..] == more;
      var a, b := ItemOf(events[0], ALL_WORDS), FrameItem(frames[0], ALL_WORDS);
      var named, known := ItemsOf(more, ALL_WORDS), FrameItems(rest, ALL_WORDS);
      assert (a + named)[1..] == named && (b + known)[1..] == known;
      if exists f :: f in rest && !Truthful(f) {
      } else {
        assert (exists f :: f in frames && !Truthful(f)) ==> !Truthful(frames[0]);
      }
      assert Truthful(frames[0]) || Trim(frames[0].data) != "[DONE]" by { UntruthfulData(frames[0]); }
    }
  }

  lemma {:induction false} UntruthfulData(f: Frame)
    ensures Truthful(f) || Trim(f.data) != "[DONE]"
  {
  }

  lemma {:induction false} Uncut(frames: seq<Frame>, rd: Reading, order: S.Order)
    requires forall f :: f in frames ==> OneLine(f)
    ensures Concat([StreamText(frames)]) == StreamText(frames)
    ensures TransformAll(S.INITIAL_STATE, "", [StreamText(frames)], rd, order)
         == S.Run(S.INITIAL_STATE, ItemsOf(StreamEvents(frames, rd.valid), rd), order)
  {
    hide S.Run, ItemsOf, Parse, StreamEvents, OneLine;
    var text := StreamText(frames);
    FormatParseRoundTrip(frames, rd.valid);
    assert [text][1..] == [] && "" + text == text && text + "" == text;
    assert Concat([]) == "";
  }

  /** For every cutting of the stream, every reading of its payloads and every map order the converter
      writes what it writes for the frames taken one by one. */
  ghost predicate HoweverCut(frames: seq<Frame>) {
    forall chunks, rd, order :: Concat(chunks) == StreamText(frames) ==>
      TransformAll(S.INITIAL_STATE, "", chunks, rd, order) == S.Run(S.INITIAL_STATE, FrameItems(frames, rd), order)
  }

  /** That holds exactly if each frame that has the name of the end marker is the end marker. */
  lemma {:induction false} CutsDoNotMatterExactly(frames: seq<Frame>)
    requires forall f :: f in frames ==> OneLine(f)
    ensures HoweverCut(frames) <==> forall f :: f in frames ==> Truthful(f)
  {
    hide OneLine, Truthful, TransformAll, S.Run, FrameItems, StreamText;
    if forall f :: f in frames ==> Truthful(f) {
      forall chunks, rd, order | Concat(chunks) == StreamText(frames)
        ensures TransformAll(S.INITIAL_STATE, "", chunks, rd, order)
             == S.Run(S.INITIAL_STATE, FrameItems(frames, rd), order)
      {
        CutsDoNotMatter(frames, chunks, rd, order);
      }
    } else {
      var text := StreamText(frames);
      Uncut(frames, ALL_WORDS, NO_ORDER);
      WholeFrames(frames);
      RunDeltas(S.INITIAL_STATE, ItemsOf(StreamEvents(frames, ALL_WORDS.valid), ALL_WORDS));
      RunDeltas(S.INITIAL_STATE, FrameItems(frames, ALL_WORDS));
      assert Concat([text]) == text;
    }
  }

  /** A frame that bears that name is taken for the end marker if it comes whole; if it is cut after
      its first line, the parser forgets the name and the frame counts for what it holds. */
  lemma {:induction false} NamedDoneDependsOnCut(f: Frame, rd: Reading)
    requires OneLine(f) && Trim(f.event) == "done" && f.event != ""
    requires Trim(f.data) != "[DONE]" && rd.valid(Trim(f.data)) && rd.decode(Trim(f.data)).Some?
    ensures var first, rest := "event: " + f.event + "\n", FormatSSE("", f.data);
            && StreamText([f]) == first + rest
            && ItemsOf(Parse(StreamText([f]), rd.valid).0, rd) == [S.Done]
            && Parse(first, rd.valid) == ([], "")
            && ItemsOf(Parse(rest, rd.valid).0, rd) == [S.Data(rd.decode(Trim(f.data)).value)]
  {
    hide Trim, Parse, Step, Split, StreamText, StreamEvents;
    var unnamed, d := Frame("", f.data), Trim(f.data);
    TrimmedStays("");
    OneFrameText(f);
    OneFrameText(unnamed);
    FormatParseRoundTrip([f], rd.valid);
    FormatParseRoundTrip([unnamed], rd.valid);
    OneFrameEvents(f, rd.valid);
    OneFrameEvents(unnamed, rd.valid);
    assert ItemsOf([SseEvent("done", Some(d))], rd) == [S.Done] by { OneItem(SseEvent("done", Some(d)), rd); }
    OneItem(SseEvent("", Some(d)), rd);
    NameAlone(f, rd.valid);
  }

  lemma {:induction false} OneFrameText(f: Frame)
    ensures StreamText([f]) == FormatSSE(f.event, f.data)
  {
    assert [f][1..] == [] && FormatSSE(f.event, f.data) + "" == FormatSSE(f.event, f.data);
    assert StreamText([]) == "";
  }

  lemma {:induction false} OneFrameEvents(f: Frame, valid: string -> bool)
    ensures StreamEvents([f], valid) == FrameEvents(f, valid)
  {
    hide Trim, FrameEvents;
    assert [f][1..] == [] && FrameEvents(f, valid) + [] == FrameEvents(f, valid);
    assert StreamEvents([], valid) == [];
  }

  lemma {:induction false} OneItem(e: SseEvent, rd: Reading)
    ensures ItemsOf([e], rd) == ItemOf(e, rd)
  {
    hide ItemOf;
    assert [e][1..] == [] && ItemOf(e, rd) + [] == ItemOf(e, rd);
    assert ItemsOf([], rd) == [];
  }

  lemma {:induction false} NameAlone(f: Frame, valid: string -> bool)
    requires OneLine(f)
    ensures Parse("event: " + f.event + "\n", valid) == ([], "")
  {
    hide Trim, Split;
    var line := "event: " + f.event;
    SplitBlank(line);
    FieldSteps(START, f, valid);
    hide Step;
    assert [line][1..] == [] && [line] + [""] == [line, ""];
    assert Steps(START, valid, [line]) == Step(START, valid, line);
    assert [] + Flush(Step(START, valid, line), valid) == [];
    EndsWithNewline(line + "\n", [line], valid);
  }

  /** So the bytes of a formatted upstream stream, however cut, come out as a well-formed Claude
      stream exactly when the frames are a fair stream, and then they say the same. */
  lemma {:induction false} BytesExact(frames: seq<Frame>, chunks: seq<string>, rd: Reading, order: S.Order)
    requires forall f :: f in frames ==> OneLine(f) && Truthful(f)
    requires Concat(chunks) == StreamText(frames) && S.IsMapOrder(order)
    ensures var log, items := TransformAll(S.INITIAL_STATE, "", chunks, rd, order).log, FrameItems(frames, rd);
            && (WellFormed(log) <==> S.Fair(items))
            && (S.Fair(items) ==>
                  && Read(log).said == S.Said(items) && Streams.Introduces(log, items)
                  && Streams.StopsFor(Streams.ReasonSent(items, false, ""), Read(log).stopReason))
  {
    hide TransformAll, FrameItems, S.Run, S.Fair, S.Said, Read, S.IsMapOrder;
    CutsDoNotMatter(frames, chunks, rd, order);
    Streams.StreamExact(FrameItems(frames, rd), order);
  }
}

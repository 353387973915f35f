/** Server-sent events: the parser with its carried-over buffer and the formatter of
    internal/converter/sse.go. */
module Sse {
  import opened Options
  import opened Text

  /** `data` is None only in the event that stands for the `[DONE]` marker. */
  datatype SseEvent = SseEvent(event: string, data: Option<string>)

  predicate HasPrefix(s: string, prefix: string) {
    prefix <= s
  }

  function Join(parts: seq<string>): string {
    if parts == [] then "" else if |parts| == 1 then parts[0] else parts[0] + "\n" + Join(parts[1..])
  }

  // ---------------------------------------------------------------- one line

  /** The loop variables of ParseSSE. */
  datatype Parsing = Parsing(events: seq<SseEvent>, event: string, data: seq<string>)

  const START := Parsing([], "", [])

  /** The event that the collected data lines make, if any; `valid` says which texts are JSON. */
  function Flush(p: Parsing, valid: string -> bool): seq<SseEvent> {
    if p.data == [] then []
    else
      var d := Join(p.data);
      if d == "[DONE]" then [SseEvent("done", None)]
      else if valid(d) then [SseEvent(p.event, Some(d))]
      else []
  }

  function Step(p: Parsing, valid: string -> bool, raw: string): Parsing {
    var line := Trim(raw);
    if line == "" then Parsing(p.events + Flush(p, valid), "", [])
    else if HasPrefix(line, "event:") then p.(event := Trim(line[6..]))
    else if HasPrefix(line, "data:") then p.(data := p.data + [Trim(line[5..])])
    else p
  }

  function Steps(p: Parsing, valid: string -> bool, lines: seq<string>): Parsing
    decreases |lines|
  {
    if lines == [] then p else Steps(Step(p, valid, lines[0]), valid, lines[1..])
  }

  /** All events of the text, and the unfinished last line. */
  function Parse(text: string, valid: string -> bool): (seq<SseEvent>, string) {
    var rest := Rest(text, '\n');
    if rest != "" then (Steps(START, valid, Complete(text, '\n')).events, rest)
    else (Steps(START, valid, Split(text, '\n')).events, "")
  }

  lemma {:induction false} StepsAppend(p: Parsing, valid: string -> bool, a: seq<string>, b: seq<string>)
    ensures Steps(p, valid, a + b) == Steps(Steps(p, valid, a), valid, b)
    decreases |a|
  {
    if a == [] {
      assert a + b == b;
    } else {
      assert (a + b)[1..] == a[1..] + b;
      StepsAppend(Step(p, valid, a[0]), valid, a[1..], b);
    }
  }

  lemma {:induction false} StepsNext(p: Parsing, valid: string -> bool, lines: seq<string>, i: nat)
    requires i < |lines|
    ensures Steps(p, valid, lines[..i + 1]) == Step(Steps(p, valid, lines[..i]), valid, lines[i])
  {
    assert lines[..i + 1] == lines[..i] + [lines[i]];
    StepsAppend(p, valid, lines[..i], [lines[i]]);
  }

  /** ParseSSE as the loop over the lines that it is. */
  method ParseSSE(text: string, valid: string -> bool) returns (events: seq<SseEvent>, remaining: string)
    ensures (events, remaining) == Parse(text, valid)
  {
    hide Trim, Join;
    events, remaining := [], "";
    var currentEvent, currentData := "", [];
    var lines := Split(text, '\n');
    for i := 0 to |lines|
      invariant remaining == "" && (i == |lines| ==> lines[i - 1] == "")
      invariant Parsing(events, currentEvent, currentData) == Steps(START, valid, lines[..i])
    {
      var line := lines[i];
      if i == |lines| - 1 && line != "" {
        remaining := line;
        break;
      }
      StepsNext(START, valid, lines, i);
      line := Trim(line);
      if line == "" {
        if |currentData| > 0 {
          var dataStr := Join(currentData);
          if dataStr == "[DONE]" {
            events := events + [SseEvent("done", None)];
          } else if valid(dataStr) {
            events := events + [SseEvent(currentEvent, Some(dataStr))];
          }
        }
        currentEvent, currentData := "", [];
      } else if HasPrefix(line, "event:") {
        currentEvent := Trim(line[6..]);
      } else if HasPrefix(line, "data:") {
        currentData := currentData + [Trim(line[5..])];
      }
    }
    assert lines[..|lines|] == lines;
  }

  // ---------------------------------------------------------------- formatting

  /** FormatSSE on data that is already text. */
  function FormatSSE(event: string, data: string): string {
    (if event == "" then "" else "event: " + event + "\n") + "data: " + data + "\n\n"
  }

  function FormatDone(): string {
    "data: [DONE]\n\n"
  }

  /** What a reader of the stream is after: the payloads and the end markers. */
  datatype Payload = Done | Data(text: string)

  function PayloadOf(e: SseEvent): Payload {
    if e.data.None? then Done else Data(e.data.value)
  }

  function Payloads(events: seq<SseEvent>): seq<Payload> {
    seq(|events|, k requires 0 <= k < |events| => PayloadOf(events[k]))
  }

  lemma {:induction false} PayloadsAppend(a: seq<SseEvent>, b: seq<SseEvent>)
    ensures Payloads(a + b) == Payloads(a) + Payloads(b)
  {
  }

  // ---------------------------------------------------------------- streams cut into chunks

  /** Chunks fed one after the other, each with the buffer its predecessor left. */
  function Feed(buffer: string, chunks: seq<string>, valid: string -> bool): (seq<Payload>, string)
    decreases |chunks|
  {
    if chunks == [] then ([], buffer)
    else
      var (events, rest) := Parse(buffer + chunks[0], valid);
      var (more, last) := Feed(rest, chunks[1..], valid);
      (Payloads(events) + more, last)
  }

  function Concat(chunks: seq<string>): string {
    if chunks == [] then "" else chunks[0] + Concat(chunks[1..])
  }

  predicate IsData(line: string) {
    HasPrefix(Trim(line), "data:") && !HasPrefix(Trim(line), "event:")
  }

  /** What a data line says by itself. */
  function LinePayload(line: string, valid: string -> bool): seq<Payload> {
    if !IsData(line) then []
    else
      var d := Trim(Trim(line)[5..]);
      if d == "[DONE]" then [Done] else if valid(d) then [Data(d)] else []
  }

  function LinePayloads(lines: seq<string>, valid: string -> bool): seq<Payload> {
    if lines == [] then [] else LinePayload(lines[0], valid) + LinePayloads(lines[1..], valid)
  }

  lemma {:induction false} LinePayloadsAppend(a: seq<string>, b: seq<string>, valid: string -> bool)
    ensures LinePayloads(a + b, valid) == LinePayloads(a, valid) + LinePayloads(b, valid)
  {
    if a == [] {
      assert a + b == b;
    } else {
      assert (a + b)[1..] == a[1..] + b;
      LinePayloadsAppend(a[1..], b, valid);
    }
  }

  /** Every data line is followed at once by an empty line: no event has two data lines, and
      nothing stands between the data and the blank line that ends the event. */
  predicate Isolated(lines: seq<string>) {
    forall k :: 0 <= k < |lines| - 1 && IsData(lines[k]) ==> lines[k + 1] == ""
  }

  /** Isolated, and the last line is not a data line that still waits for its blank line. */
  predicate Settled(lines: seq<string>) {
    Isolated(lines) && (lines != [] ==> !IsData(lines[|lines| - 1]))
  }

  /** A data line and its blank line report that line's payload. */
  lemma {:induction false} DataThenBlank(p: Parsing, line: string, valid: string -> bool)
    requires p.data == [] && IsData(line)
    ensures var q := Step(Step(p, valid, line), valid, "");
            q.data == [] && Payloads(q.events) == Payloads(p.events) + LinePayload(line, valid)
  {
    hide Trim;
    assert Trim("") == "" by { TrimmedStays(""); }
    var d := Trim(Trim(line)[5..]);
    var p1 := Step(p, valid, line);
    assert p1 == p.(data := [d]) by { assert p.data + [d] == [d]; }
    assert Join([d]) == d;
    assert Payloads(Flush(p1, valid)) == LinePayload(line, valid);
  }

  lemma {:induction false} OtherLine(p: Parsing, line: string, valid: string -> bool)
    requires p.data == [] && !IsData(line)
    ensures Step(p, valid, line).data == [] && Step(p, valid, line).events == p.events
  {
    hide Trim;
    assert p.events + [] == p.events;
  }

  lemma {:induction false} SettledSteps(p: Parsing, lines: seq<string>, valid: string -> bool)
    requires p.data == [] && Settled(lines)
    ensures var q := Steps(p, valid, lines);
            q.data == [] && Payloads(q.events) == Payloads(p.events) + LinePayloads(lines, valid)
    decreases |lines|
  {
    hide Isolated, Settled, IsData, Step, LinePayload, Payloads;
    if lines == [] {
      assert Payloads(p.events) + [] == Payloads(p.events);
    } else {
      SettledTails(lines);
      var first := LinePayload(lines[0], valid);
      if IsData(lines[0]) {
        DataThenBlank(p, lines[0], valid);
        SettledSteps(Step(Step(p, valid, lines[0]), valid, ""), lines[2..], valid);
        assert lines[1..][1..] == lines[2..];
        BlankPayload(valid);
        var more := LinePayloads(lines[2..], valid);
        assert [] + more == more;
        assert (Payloads(p.events) + first) + more == Payloads(p.events) + (first + more);
      } else {
        OtherLine(p, lines[0], valid);
        SettledSteps(Step(p, valid, lines[0]), lines[1..], valid);
        assert first == [] by { NoPayload(lines[0], valid); }
        var more := LinePayloads(lines[1..], valid);
        assert [] + more == more;
      }
    }
  }

  lemma {:induction false} NoPayload(line: string, valid: string -> bool)
    requires !IsData(line)
    ensures LinePayload(line, valid) == []
  {
  }

  lemma {:induction false} NothingToReport(valid: string -> bool)
    ensures !IsData("") && Payloads([]) == [] && LinePayloads([], valid) == []
  {
    TrimmedStays("");
  }

  lemma {:induction false} OneLinePayload(line: string, valid: string -> bool)
    ensures LinePayloads([line], valid) == LinePayload(line, valid)
  {
    assert [line][1..] == [];
    assert LinePayload(line, valid) + [] == LinePayload(line, valid);
  }

  lemma {:induction false} BlankPayload(valid: string -> bool)
    ensures LinePayload("", valid) == []
  {
    TrimmedStays("");
  }

  lemma {:induction false} SettledTails(lines: seq<string>)
    requires lines != [] && Settled(lines)
    ensures !IsData(lines[0]) ==> Settled(lines[1..])
    ensures IsData(lines[0]) ==> |lines| > 1 && lines[1] == "" && Settled(lines[2..])
  {
    assert forall k :: 0 <= k < |lines| - 1 ==> lines[1..][k] == lines[k + 1];
    if IsData(lines[0]) {
      assert forall k :: 0 <= k < |lines| - 2 ==> lines[2..][k] == lines[k + 2];
    }
  }

  /** A text whose data lines are isolated reports the payload of each of its complete data lines. */
  lemma {:induction false} ParseIsolated(text: string, valid: string -> bool)
    requires Isolated(Split(text, '\n'))
    ensures Payloads(Parse(text, valid).0) == LinePayloads(Complete(text, '\n'), valid)
    ensures Parse(text, valid).1 == Rest(text, '\n')
  {
    hide Trim, IsData, LinePayload, Payloads, LinePayloads, Steps;
    var lines, whole := Split(text, '\n'), Complete(text, '\n');
    assert lines == whole + [Rest(text, '\n')];
    NothingToReport(valid);
    if Rest(text, '\n') != "" {
      assert Settled(whole) by {
        assert forall k :: 0 <= k < |whole| ==> whole[k] == lines[k];
      }
      SettledSteps(START, whole, valid);
    } else {
      assert Settled(lines);
      SettledSteps(START, lines, valid);
      LinePayloadsAppend(whole, [""], valid);
      BlankPayload(valid);
      assert LinePayloads([""], valid) == [] by { OneLinePayload("", valid); }
      assert LinePayloads(whole, valid) + [] == LinePayloads(whole, valid);
    }
  }

  // ---------------------------------------------------------------- independence of the cuts

  lemma {:induction false} IsolatedGlue(p: seq<string>, q: seq<string>)
    requires |p| >= 1 && |q| >= 1 && Isolated(Glue(p, q))
    ensures Isolated(p) && Isolated(Glue([p[|p| - 1]], q))
  {
    hide IsData;
    var g := Glue(p, q);
    forall k | 0 <= k < |p| - 1 && IsData(p[k]) ensures p[k + 1] == "" {
      assert g[k] == p[k] && g[k + 1] == "";
    }
    var r := Glue([p[|p| - 1]], q);
    forall k | 0 <= k < |r| - 1 && IsData(r[k]) ensures r[k + 1] == "" {
      assert g[k + |p| - 1] == r[k] && g[k + |p|] == r[k + 1];
    }
  }

  lemma {:induction false} IsolatedCut(a: string, b: string)
    requires Isolated(Split(a + b, '\n'))
    ensures Isolated(Split(a, '\n')) && Isolated(Split(Rest(a, '\n') + b, '\n'))
  {
    hide Isolated, Glue;
    SplitAppend(a, b, '\n');
    RestWhole(a, '\n');
    SplitAppend(Rest(a, '\n'), b, '\n');
    IsolatedGlue(Split(a, '\n'), Split(b, '\n'));
  }

  /** Whatever the cuts, the chunks report the complete data lines of the whole and keep its
      unfinished last line. */
  lemma {:induction false} FeedIsolated(buffer: string, chunks: seq<string>, valid: string -> bool)
    requires Isolated(Split(buffer + Concat(chunks), '\n')) && '\n' !in buffer
    ensures Feed(buffer, chunks, valid)
         == (LinePayloads(Complete(buffer + Concat(chunks), '\n'), valid), Rest(buffer + Concat(chunks), '\n'))
    decreases |chunks|
  {
    hide Isolated, Payloads, LinePayloads, Parse, Complete, Rest;
    if chunks == [] {
      assert buffer + "" == buffer;
      assert LinePayloads(Complete(buffer, '\n'), valid) == [] && Rest(buffer, '\n') == buffer by {
        Unbroken(buffer, valid);
      }
    } else {
      var whole, rest := buffer + chunks[0], Concat(chunks[1..]);
      assert buffer + Concat(chunks) == whole + rest;
      IsolatedCut(whole, rest);
      ParseIsolated(whole, valid);
      RestWhole(whole, '\n');
      FeedIsolated(Rest(whole, '\n'), chunks[1..], valid);
      SplitAtCut(whole, rest, '\n');
      LinePayloadsAppend(Complete(whole, '\n'), Complete(Rest(whole, '\n') + rest, '\n'), valid);
    }
  }

  lemma {:induction false} Unbroken(s: string, valid: string -> bool)
    requires '\n' !in s
    ensures LinePayloads(Complete(s, '\n'), valid) == [] && Rest(s, '\n') == s
  {
    WholePiece(s, '\n');
  }

  /** Cutting a stream with isolated data lines anywhere changes neither the payloads and end
      markers nor what is left in the buffer. */
  lemma {:induction false} ChunkingIndependent(chunks: seq<string>, valid: string -> bool)
    requires Isolated(Split(Concat(chunks), '\n'))
    ensures var (events, rest) := Parse(Concat(chunks), valid);
            Feed("", chunks, valid) == (Payloads(events), rest)
  {
    hide Isolated, Payloads, LinePayloads, Parse, Feed;
    assert "" + Concat(chunks) == Concat(chunks);
    FeedIsolated("", chunks, valid);
    ParseIsolated(Concat(chunks), valid);
  }

  // ---------------------------------------------------------------- formatted streams

  /** One call of FormatSSE; FormatDone is the call with the text `[DONE]` and no event name. */
  datatype Frame = Frame(event: string, data: string)

  predicate OneLine(f: Frame) {
    '\n' !in f.event && '\n' !in f.data
  }

  function StreamText(frames: seq<Frame>): string {
    if frames == [] then "" else FormatSSE(frames[0].event, frames[0].data) + StreamText(frames[1..])
  }

  function FrameLines(f: Frame): seq<string> {
    (if f.event == "" then [] else ["event: " + f.event]) + ["data: " + f.data, ""]
  }

  function FrameEvents(f: Frame, valid: string -> bool): seq<SseEvent> {
    var d := Trim(f.data);
    if d == "[DONE]" then [SseEvent("done", None)]
    else if valid(d) then [SseEvent(Trim(f.event), Some(d))]
    else []
  }

  function StreamEvents(frames: seq<Frame>, valid: string -> bool): seq<SseEvent> {
    if frames == [] then [] else FrameEvents(frames[0], valid) + StreamEvents(frames[1..], valid)
  }

  lemma {:induction false} DoneIsAFrame()
    ensures FormatDone() == FormatSSE("", "[DONE]")
  {
    assert "" + "data: " + "[DONE]" + "\n\n" == "data: [DONE]\n\n";
  }

  /** A prefix ending in a colon stands when the line is trimmed, and the value is trimmed. */
  lemma {:induction false} FieldLine(prefix: string, value: string)
    requires prefix == "event:" || prefix == "data:"
    ensures var line := Trim(prefix + " " + value);
            |line| > 0 && line[0] == prefix[0] && HasPrefix(line, prefix) && Trim(line[|prefix|..]) == Trim(value)
  {
    var s := " " + value;
    assert prefix + " " + value == prefix + s;
    assert (prefix + s)[0] == prefix[0];
    assert TrimLeft(prefix + s) == prefix + s;
    TrimRightAppend(prefix, s);
    TrimAfterTrimRight(s);
    assert s[0] == ' ' && s[1..] == value;
    assert TrimLeft(s) == TrimLeft(value);
  }

  lemma {:induction false} FieldSteps(p: Parsing, f: Frame, valid: string -> bool)
    requires p.event == "" && p.data == []
    ensures Step(p, valid, "event: " + f.event) == p.(event := Trim(f.event))
    ensures forall q: Parsing :: q.data == [] ==> Step(q, valid, "data: " + f.data) == q.(data := [Trim(f.data)])
  {
    hide Trim;
    assert "event:" + " " + f.event == "event: " + f.event;
    assert "data:" + " " + f.data == "data: " + f.data;
    FieldLine("event:", f.event);
    FieldLine("data:", f.data);
  }

  lemma {:induction false} FrameSteps(p: Parsing, f: Frame, valid: string -> bool)
    requires p.event == "" && p.data == []
    ensures Steps(p, valid, FrameLines(f)) == p.(events := p.events + FrameEvents(f, valid))
  {
    hide Trim;
    FieldSteps(p, f, valid);
    assert Trim("") == "" by { TrimmedStays(""); }
    var d := Trim(f.data);
    var last := ["data: " + f.data, ""];
    var p1 := if f.event == "" then p else p.(event := Trim(f.event));
    var p2 := p1.(data := [d]);
    assert Step(p1, valid, "data: " + f.data) == p2;
    assert Join([d]) == d;
    assert p1.event == Trim(f.event);
    assert Step(p2, valid, "") == p.(events := p.events + FrameEvents(f, valid));
    hide Step, FrameEvents;
    assert last[1..] == [""] && [""][1..] == [];
    assert Steps(p2, valid, [""]) == Step(p2, valid, "");
    assert Steps(p1, valid, last) == Step(p2, valid, "");
    if f.event == "" {
      assert FrameLines(f) == last;
    } else {
      assert FrameLines(f) == ["event: " + f.event] + last;
      assert FrameLines(f)[1..] == last;
    }
  }

  lemma {:induction false} FrameSplit(f: Frame, rest: string)
    requires OneLine(f)
    ensures Split(FormatSSE(f.event, f.data) + rest, '\n') == FrameLines(f) + Split(rest, '\n')
  {
    var data := "data: " + f.data;
    hide Split;
    var tail := data + ['\n'] + ("" + ['\n'] + rest);
    SplitLine("", rest, '\n');
    SplitLine(data, "" + ['\n'] + rest, '\n');
    assert Split(tail, '\n') == [data] + ([""] + Split(rest, '\n'));
    if f.event == "" {
      assert FormatSSE(f.event, f.data) + rest == tail;
    } else {
      var event := "event: " + f.event;
      SplitLine(event, tail, '\n');
      assert FormatSSE(f.event, f.data) + rest == event + ['\n'] + tail;
    }
  }

  lemma {:induction false} FrameSettled(f: Frame)
    ensures Settled(FrameLines(f))
  {
    hide Trim;
    assert "event:" + " " + f.event == "event: " + f.event;
    FieldLine("event:", f.event);
    assert Trim("") == "" by { TrimmedStays(""); }
  }

  lemma {:induction false} IsolatedAppend(a: seq<string>, b: seq<string>)
    requires Settled(a) && Isolated(b)
    ensures Isolated(a + b)
  {
    hide IsData;
    var c := a + b;
    forall k | 0 <= k < |c| - 1 && IsData(c[k]) ensures c[k + 1] == "" {
      if k >= |a| {
        assert b[k - |a|] == c[k];
      } else {
        assert a[k] == c[k];
      }
    }
  }

  lemma {:induction false} FormattedIsolated(frames: seq<Frame>)
    requires forall f :: f in frames ==> OneLine(f)
    ensures Isolated(Split(StreamText(frames), '\n')) && Rest(StreamText(frames), '\n') == ""
    decreases |frames|
  {
    hide Trim, FrameLines, FormatSSE, OneLine, Isolated, Settled, Split;
    if frames == [] {
      Alone();
    } else {
      var f, rest := frames[0], StreamText(frames[1..]);
      FrameSplit(f, rest);
      FormattedIsolated(frames[1..]);
      FrameSettled(f);
      IsolatedAppend(FrameLines(f), Split(rest, '\n'));
    }
  }

  lemma {:induction false} FormattedSteps(p: Parsing, frames: seq<Frame>, valid: string -> bool)
    requires forall f :: f in frames ==> OneLine(f)
    requires p.event == "" && p.data == []
    ensures Steps(p, valid, Split(StreamText(frames), '\n')).events == p.events + StreamEvents(frames, valid)
    decreases |frames|
  {
    hide Trim, FrameEvents, FrameLines, FormatSSE, OneLine, Step, Split, Steps;
    if frames == [] {
      EmptyStream(p, valid);
    } else {
      var f, rest := frames[0], frames[1..];
      FrameSplit(f, StreamText(rest));
      FrameSteps(p, f, valid);
      FormattedSteps(p.(events := p.events + FrameEvents(f, valid)), rest, valid);
      StepsAppend(p, valid, FrameLines(f), Split(StreamText(rest), '\n'));
      assert (p.events + FrameEvents(f, valid)) + StreamEvents(rest, valid)
          == p.events + StreamEvents(frames, valid);
    }
  }

  lemma {:induction false} EmptyStream(p: Parsing, valid: string -> bool)
    requires p.event == "" && p.data == []
    ensures Steps(p, valid, Split("", '\n')).events == p.events + []
  {
    BlankStep(p, valid);
    assert [""][1..] == [];
  }

  lemma {:induction false} Alone()
    ensures Isolated(Split("", '\n')) && Rest("", '\n') == ""
  {
  }

  lemma {:induction false} BlankStep(p: Parsing, valid: string -> bool)
    requires p.event == "" && p.data == []
    ensures Step(p, valid, "") == p
  {
    TrimmedStays("");
    assert p.events + [] == p.events;
  }

  /** Formatting then parsing: every frame comes back, name and data trimmed. */
  lemma {:induction false} FormatParseRoundTrip(frames: seq<Frame>, valid: string -> bool)
    requires forall f :: f in frames ==> OneLine(f)
    ensures Parse(StreamText(frames), valid) == (StreamEvents(frames, valid), "")
  {
    hide Trim, Isolated, FrameEvents, FormatSSE, OneLine, Step;
    FormattedSteps(START, frames, valid);
    FormattedIsolated(frames);
    assert [] + StreamEvents(frames, valid) == StreamEvents(frames, valid);
  }

  /** A formatted stream delivers the same payloads and end markers in whatever chunks it arrives. */
  lemma {:induction false} FormattedSurvivesCutting(frames: seq<Frame>, chunks: seq<string>, valid: string -> bool)
    requires forall f :: f in frames ==> OneLine(f)
    requires Concat(chunks) == StreamText(frames)
    ensures Feed("", chunks, valid) == (Payloads(StreamEvents(frames, valid)), "")
  {
    hide Trim, Isolated, FrameEvents, FormatSSE, OneLine, Steps, Parse, Feed, Payloads;
    FormattedIsolated(frames);
    FormatParseRoundTrip(frames, valid);
    ChunkingIndependent(chunks, valid);
  }

  // ---------------------------------------------------------------- events of several data lines

  /** An event with these data lines and no name. */
  function DataText(values: seq<string>): string {
    if values == [] then "\n" else "data: " + values[0] + "\n" + DataText(values[1..])
  }

  function DataLines(values: seq<string>): seq<string> {
    if values == [] then [] else ["data: " + values[0]] + DataLines(values[1..])
  }

  function AllTrimmed(values: seq<string>): seq<string> {
    seq(|values|, k requires 0 <= k < |values| => Trim(values[k]))
  }

  predicate OnOneLine(values: seq<string>) {
    forall k :: 0 <= k < |values| ==> '\n' !in values[k]
  }

  lemma {:induction false} SplitJoin(parts: seq<string>)
    requires parts != [] && OnOneLine(parts)
    ensures Split(Join(parts), '\n') == parts
    decreases |parts|
  {
    hide Split;
    if |parts| == 1 {
      WholePiece(parts[0], '\n');
    } else {
      assert forall k :: 0 <= k < |parts| - 1 ==> parts[1..][k] == parts[k + 1];
      SplitJoin(parts[1..]);
      SplitLine(parts[0], Join(parts[1..]), '\n');
      assert parts[0] + ['\n'] + Join(parts[1..]) == Join(parts);
    }
  }

  lemma {:induction false} DataSplit(values: seq<string>)
    requires OnOneLine(values)
    ensures Split(DataText(values), '\n') == DataLines(values) + ["", ""]
    decreases |values|
  {
    hide Split;
    if values == [] {
      SplitBlank("");
      assert "" + "\n" == "\n";
    } else {
      assert forall k :: 0 <= k < |values| - 1 ==> values[1..][k] == values[k + 1];
      DataSplit(values[1..]);
      SplitLine("data: " + values[0], DataText(values[1..]), '\n');
      assert "data: " + values[0] + ['\n'] + DataText(values[1..]) == DataText(values);
    }
  }

  lemma {:induction false} DataStep(p: Parsing, value: string, valid: string -> bool)
    ensures Step(p, valid, "data: " + value) == p.(data := p.data + [Trim(value)])
  {
    hide Trim;
    assert "data:" + " " + value == "data: " + value;
    FieldLine("data:", value);
  }

  lemma {:induction false} DataSteps(p: Parsing, values: seq<string>, valid: string -> bool)
    ensures Steps(p, valid, DataLines(values)) == p.(data := p.data + AllTrimmed(values))
    decreases |values|
  {
    hide Trim, Step;
    if values == [] {
      assert p.data + AllTrimmed([]) == p.data;
    } else {
      DataStep(p, values[0], valid);
      DataSteps(Step(p, valid, "data: " + values[0]), values[1..], valid);
      assert AllTrimmed(values) == [Trim(values[0])] + AllTrimmed(values[1..]);
      assert p.data + [Trim(values[0])] + AllTrimmed(values[1..]) == p.data + AllTrimmed(values);
    }
  }

  lemma {:induction false} TrimOneLine(value: string)
    requires '\n' !in value
    ensures '\n' !in Trim(value)
  {
    TrimLeftSuffix(value);
    TrimRightPrefix(TrimLeft(value));
  }

  lemma {:induction false} TrimRightPrefix(s: string)
    ensures TrimRight(s) <= s
    decreases |s|
  {
    if BackSpace(s) > 0 {
      TrimRightPrefix(s[..|s| - BackSpace(s)]);
    }
  }

  /** An event of several data lines has one payload, of which these lines are the values, trimmed. */
  lemma {:induction false} SeveralDataLines(values: seq<string>, valid: string -> bool) returns (payload: string)
    requires values != [] && OnOneLine(values)
    ensures Split(payload, '\n') == AllTrimmed(values)
    ensures Parse(DataText(values), valid)
         == (if payload == "[DONE]" then [SseEvent("done", None)]
             else if valid(payload) then [SseEvent("", Some(payload))] else [], "")
  {
    hide Split, Join, Step, Trim;
    forall k | 0 <= k < |values| ensures '\n' !in AllTrimmed(values)[k] {
      TrimOneLine(values[k]);
    }
    payload := Join(AllTrimmed(values));
    SplitJoin(AllTrimmed(values));
    DataSplit(values);
    DataSteps(START, values, valid);
    assert [] + AllTrimmed(values) == AllTrimmed(values);
    var p := START.(data := AllTrimmed(values));
    assert DataLines(values) + ["", ""] == (DataLines(values) + [""]) + [""];
    StepsAppend(START, valid, DataLines(values), [""]);
    EndsWithNewline(DataText(values), DataLines(values) + [""], valid);
    BlankAfter(p, valid);
  }

  lemma {:induction false} BlankAfter(p: Parsing, valid: string -> bool)
    requires p.events == []
    ensures Steps(p, valid, [""]) == Parsing(Flush(p, valid), "", [])
    ensures Flush(Parsing(Flush(p, valid), "", []), valid) == []
    ensures Flush(p, valid) + [] == Flush(p, valid)
  {
    TrimmedStays("");
    assert [""][1..] == [] && [] + Flush(p, valid) == Flush(p, valid);
  }

  // ---------------------------------------------------------------- where the cuts do matter

  /** Before a line of the text, other than the first, the text can be cut. */
  lemma {:induction false} CutBefore(text: string, k: nat) returns (a: string, b: string)
    requires k < |Split(text, '\n')| - 1
    ensures text == a + b
    ensures Split(a, '\n') == Split(text, '\n')[..k + 1] + [""] && Split(b, '\n') == Split(text, '\n')[k + 1..]
    decreases |text|
  {
    hide Split;
    NoText();
    var c, tail := text[0], Split(text[1..], '\n');
    SplitFirst(text);
    if c == '\n' && k == 0 {
      a, b := "\n", text[1..];
      assert a[1..] == "";
      SplitFirst(a);
    } else {
      var a0, b0 := CutBefore(text[1..], if c == '\n' then k - 1 else k);
      a, b := [c] + a0, b0;
      assert a[1..] == a0;
      SplitFirst(a);
      if c == '\n' {
        assert ([""] + tail)[..k + 1] == [""] + tail[..k] && ([""] + tail)[k + 1..] == tail[k..];
      } else {
        assert Split(a0, '\n')[0] == tail[0] && Split(a0, '\n')[1..] == tail[1..k + 1] + [""];
      }
    }
  }

  lemma {:induction false} NoText()
    ensures Split("", '\n') == [""]
  {
  }

  lemma {:induction false} SplitFirst(text: string)
    requires text != ""
    ensures var tail := Split(text[1..], '\n');
            Split(text, '\n') == if text[0] == '\n' then [""] + tail else [[text[0]] + tail[0]] + tail[1..]
  {
  }

  lemma {:induction false} FirstLine(text: string) returns (rest: string)
    ensures text == Split(text, '\n')[0] + rest && '\n' !in Split(text, '\n')[0]
    decreases |text|
  {
    if text == "" || text[0] == '\n' {
      rest := text;
    } else {
      rest := FirstLine(text[1..]);
    }
  }

  /** Where a data line is not followed at once by an empty line, a cut before the next line makes the
      parser report what it has collected, and a cut after the next line makes it forget that. */
  lemma {:induction false} CutsMatter(text: string, k: nat, valid: string -> bool)
      returns (early: seq<string>, late: seq<string>)
    requires var lines := Split(text, '\n');
             k < |lines| - 1 && IsData(lines[k]) && lines[k + 1] != ""
             && Flush(Steps(START, valid, lines[..k + 1]), valid) != []
    ensures Concat(early) == text == Concat(late)
    ensures |Feed("", early, valid).0| == |Feed("", late, valid).0| + 1
  {
    hide IsData, Split, Flush, Steps, Payloads;
    var lines := Split(text, '\n');
    var p, line := Steps(START, valid, lines[..k + 1]), lines[k + 1];
    var a, b := CutBefore(text, k);
    assert Split(b, '\n')[0] == line;
    var rest := FirstLine(b);
    SplitAppend(a, line, '\n');
    WholePiece(line, '\n');
    assert Split(a + line, '\n') == lines[..k + 1] + [line] by { assert "" + line == line; }
    assert Parse(a + line, valid) == (p.events, line);
    EndsWithNewline(a, lines[..k + 1], valid);
    OneFlush(p, valid);
    TwoChunks(a, b, valid);
    TwoChunks(a + line, rest, valid);
    ConcatTwo(a, b);
    ConcatTwo(a + line, rest);
    assert "" + b == b && (a + line) + rest == a + b;
    early, late := [a, b], [a + line, rest];
    PayloadsAppend(p.events, Flush(p, valid));
    SameLength(p.events + Flush(p, valid));
    SameLength(p.events);
  }

  lemma {:induction false} ConcatTwo(a: string, b: string)
    ensures Concat([a, b]) == a + b
  {
    assert [a, b][1..] == [b] && [b][1..] == [] && b + "" == b;
    assert Concat([b]) == b;
  }

  lemma {:induction false} SameLength(events: seq<SseEvent>)
    ensures |Payloads(events)| == |events|
  {
  }

  /** At the end of a text that ends in a newline the parser reports what it has collected. */
  lemma {:induction false} EndsWithNewline(text: string, lines: seq<string>, valid: string -> bool)
    requires Split(text, '\n') == lines + [""]
    ensures var p := Steps(START, valid, lines); Parse(text, valid) == (p.events + Flush(p, valid), "")
  {
    hide Split, Flush;
    StepsNext(START, valid, lines + [""], |lines|);
    assert (lines + [""])[..|lines|] == lines && (lines + [""])[..|lines| + 1] == lines + [""];
    TrimmedStays("");
  }

  lemma {:induction false} OneFlush(p: Parsing, valid: string -> bool)
    requires Flush(p, valid) != []
    ensures |Flush(p, valid)| == 1
  {
  }

  const ALL_VALID: string -> bool := text => true

  /** What a data line leaves collected is reported, if every text is valid. */
  lemma {:induction false} Collected(lines: seq<string>, k: nat)
    requires k < |lines| && IsData(lines[k])
    ensures Flush(Steps(START, ALL_VALID, lines[..k + 1]), ALL_VALID) != []
  {
    hide Trim, Join;
    StepsNext(START, ALL_VALID, lines, k);
  }

  /** Exactly the texts whose data lines are each followed at once by an empty line report the same
      payloads and end markers, and leave the same buffer, however they are cut. */
  lemma {:induction false} ChunkingIndependentExactly(text: string)
    ensures Isolated(Split(text, '\n'))
       <==> forall chunks, valid: string -> bool :: Concat(chunks) == text ==>
              Feed("", chunks, valid) == (Payloads(Parse(text, valid).0), Parse(text, valid).1)
  {
    hide Isolated, Payloads, Parse, Feed, IsData, Split;
    if Isolated(Split(text, '\n')) {
      forall chunks, valid: string -> bool | Concat(chunks) == text
        ensures Feed("", chunks, valid) == (Payloads(Parse(text, valid).0), Parse(text, valid).1)
      {
        ChunkingIndependent(chunks, valid);
      }
    } else {
      var k := NotIsolated(Split(text, '\n'));
      Collected(Split(text, '\n'), k);
      var early, late := CutsMatter(text, k, ALL_VALID);
      assert Concat(early) == text && Concat(late) == text;
    }
  }

  lemma {:induction false} NotIsolated(lines: seq<string>) returns (k: nat)
    requires !Isolated(lines)
    ensures k < |lines| - 1 && IsData(lines[k]) && lines[k + 1] != ""
  {
    hide IsData;
    k :| 0 <= k < |lines| - 1 && IsData(lines[k]) && lines[k + 1] != "";
  }

  /** If the line that should end an event is made of white space only but is not empty - the
      carriage return of a CRLF stream, say - a cut before its newline loses the event, although
      the uncut text reports it. */
  lemma {:induction false} CutBlankLineLosesEvent(line: string, blank: string, valid: string -> bool)
    requires '\n' !in line && '\n' !in blank && blank != "" && Trim(blank) == ""
    requires LinePayload(line, valid) != []
    ensures Feed("", [line + "\n" + blank, "\n"], valid).0 == []
    ensures Payloads(Parse(line + "\n" + blank + "\n", valid).0) == LinePayload(line, valid)
  {
    hide Trim, Parse, Feed, LinePayload, Payloads;
    var first, second := line + "\n" + blank, "\n";
    BeforeTheCut(line, blank, valid);
    AfterTheCut(blank, valid);
    WithoutTheCut(line, blank, valid);
    NothingToReport(valid);
    TwoChunks(first, second, valid);
    assert Payloads([]) + Payloads([]) == [];
  }

  lemma {:induction false} BeforeTheCut(line: string, blank: string, valid: string -> bool)
    requires '\n' !in line && '\n' !in blank && blank != "" && Trim(blank) == "" && LinePayload(line, valid) != []
    ensures Parse(line + "\n" + blank, valid) == ([], blank)
  {
    hide Trim, Split, LinePayload, Steps;
    SplitLine(line, blank, '\n');
    WholePiece(blank, '\n');
    assert Split(line + "\n" + blank, '\n') == [line, blank];
    assert Complete(line + "\n" + blank, '\n') == [line];
    DataLineSteps(line, blank, valid);
  }

  lemma {:induction false} SplitBlank(blank: string)
    requires '\n' !in blank
    ensures Split(blank + "\n", '\n') == [blank, ""]
  {
    hide Split;
    SplitLine(blank, "", '\n');
    WholePiece("", '\n');
    assert blank + ['\n'] + "" == blank + "\n";
  }

  lemma {:induction false} AfterTheCut(blank: string, valid: string -> bool)
    requires '\n' !in blank && Trim(blank) == ""
    ensures Parse(blank + "\n", valid) == ([], "")
  {
    hide Trim, Split, Steps;
    SplitBlank(blank);
    BlankSteps(blank, valid);
  }

  lemma {:induction false} BlankSteps(blank: string, valid: string -> bool)
    requires Trim(blank) == ""
    ensures Steps(START, valid, [blank, ""]).events == []
  {
    hide Trim;
    assert Trim("") == "" by { TrimmedStays(""); }
    assert [blank, ""][1..] == [""] && [""][1..] == [];
  }

  lemma {:induction false} WithoutTheCut(line: string, blank: string, valid: string -> bool)
    requires '\n' !in line && '\n' !in blank && Trim(blank) == "" && LinePayload(line, valid) != []
    ensures Payloads(Parse(line + "\n" + blank + "\n", valid).0) == LinePayload(line, valid)
  {
    hide Trim, Split, LinePayload, Payloads, Steps;
    var text := line + "\n" + blank + "\n";
    SplitBlank(blank);
    SplitLine(line, blank + "\n", '\n');
    assert line + ['\n'] + (blank + "\n") == text;
    assert [line] + [blank, ""] == [line, blank, ""];
    assert Split(text, '\n') == [line, blank, ""];
    DataLineSteps(line, blank, valid);
  }

  lemma {:induction false} TwoChunks(first: string, second: string, valid: string -> bool)
    ensures var (e1, r1) := Parse(first, valid); var (e2, r2) := Parse(r1 + second, valid);
            Feed("", [first, second], valid) == (Payloads(e1) + Payloads(e2), r2)
  {
    hide Parse, Payloads;
    assert "" + first == first;
    assert [first, second][1..] == [second] && [second][1..] == [];
    var (e1, r1) := Parse(first, valid);
    var (e2, r2) := Parse(r1 + second, valid);
    assert Feed(r2, [], valid) == ([], r2);
    assert Payloads(e2) + [] == Payloads(e2);
    assert Feed(r1, [second], valid) == (Payloads(e2), r2);
  }

  lemma {:induction false} DataLineSteps(line: string, blank: string, valid: string -> bool)
    requires Trim(blank) == "" && LinePayload(line, valid) != []
    ensures Steps(START, valid, [line]).events == []
    ensures Payloads(Steps(START, valid, [line, blank, ""]).events) == LinePayload(line, valid)
  {
    hide Trim;
    assert Trim("") == "" by { TrimmedStays(""); }
    assert [line][1..] == [] && [blank, ""][1..] == [""] && [""][1..] == [];
    assert [line, blank, ""][1..] == [blank, ""];
    DataThenBlank(START, line, valid);
    var p := Step(START, valid, line);
    assert Steps(START, valid, [line, blank, ""]) == Steps(p, valid, [blank, ""]);
    assert Steps(p, valid, [blank, ""]) == Step(Step(p, valid, blank), valid, "");
    assert Step(p, valid, blank) == Step(p, valid, "");
    var q := Step(p, valid, blank);
    assert q.events + [] == q.events;
    NothingToReport(valid);
    assert [] + LinePayload(line, valid) == LinePayload(line, valid);
  }

  /** So does the event of a stream with CRLF line ends. */
  lemma {:induction false} CrlfCutLosesEvent(valid: string -> bool)
    requires valid("1")
    ensures Feed("", ["data:1\r" + "\n" + "\r", "\n"], valid).0 == []
    ensures Payloads(Parse("data:1\r" + "\n" + "\r" + "\n", valid).0) == [Data("1")]
  {
    hide Feed, Parse, Payloads, LinePayload;
    CrlfDataLine(valid);
    assert '\n' !in "data:1\r" && '\n' !in "\r";
    CutBlankLineLosesEvent("data:1\r", "\r", valid);
  }

  lemma {:induction false} CrlfDataLine(valid: string -> bool)
    requires valid("1")
    ensures LinePayload("data:1\r", valid) == [Data("1")] && Trim("\r") == ""
  {
    var line := "data:1\r";
    assert line[0] == 'd' && line[6] == '\r' && line[..6] == "data:1";
    assert FrontSpace(line) == 0 && BackSpace(line) == 1;
    var data := "data:1";
    assert data[0] == 'd' && data[5] == '1' && data[4] == ':' && data[3] == 'a';
    assert BackSpace(data) == 0;
    assert Trim(line) == data;
    assert data[5..] == "1" && data[..5] == "data:";
    assert "\r"[1..] == "";
    TrimmedStays("1");
    hide Trim;
  }
}

/** The final output of a single-choice stream, whether or not its events follow the grammar. */
module CodexOutputs {
  import opened Options
  import opened ResponsesEvents
  import opened SortedKeys
  import opened OpenAIToCodex
  import opened CodexStreamSafety
  import opened CodexStreams

  predicate TracksThought(r: Reasoning, response: string, c: int, h: Heard) {
    && r.done == Segments(response, c, h.closed)
    && r.id == (if h.thinking.Some? then Some(RsId(response, c)) else None)
    && r.buf == (if h.thinking.Some? then h.thinking.value else "")
  }

  predicate TracksText(m: Messages, c: int, h: Heard) {
    m.added == (if h.text != "" then {c} else {}) && Get(m.text, c) == h.text
  }

  predicate TracksCall(t: Tools, h: Heard, i: int) {
    && Call(Get(t.callIds, i), Get(t.names, i), Get(t.args, i)) == CallOf(h.calls, i)
    && (i in t.callIds <==> CallOf(h.calls, i).id != "")
  }

  ghost predicate TracksCalls(t: Tools, h: Heard) {
    forall i :: TracksCall(t, h, i)
  }

  /** What the converter will put into the final output is what it has heard. */
  ghost predicate Tracks(s: State, c: int, h: Heard) {
    && s.started && !s.completed
    && TracksThought(s.reasoning, s.response, c, h)
    && TracksText(s.messages, c, h)
    && TracksCalls(s.tools, h)
  }

  lemma {:induction false} StopReasoningTracks(s: State, c: int, h: Heard)
    requires Tracks(s, c, h)
    ensures Tracks(StopReasoning(s), c, Settle(h))
  {
    assert forall i :: TracksCall(s.tools, h, i) ==> TracksCall(s.tools, Settle(h), i);
  }

  lemma {:induction false} HandleContentTracks(s: State, c: int, h: Heard, text: string)
    requires Tracks(s, c, h)
    ensures Tracks(HandleContent(s, c, text), c, HearContent(h, text))
  {
    if text != "" {
      StopReasoningTracks(s, c, h);
      var s1, h1 := StopReasoning(s), Settle(h);
      SayTracksText(s1, c, h1, text);
    }
  }

  lemma {:induction false} SayTracksText(s: State, c: int, h: Heard, text: string)
    requires Tracks(s, c, h) && text != ""
    ensures Tracks(Say(AddMessagePart(AnnounceMessage(s, c), c), c, text), c, h.(text := h.text + text))
  {
    hide TracksThought, Segments;
    var s', h' := Say(AddMessagePart(AnnounceMessage(s, c), c), c, text), h.(text := h.text + text);
    assert s'.messages.added == {c} && Get(s'.messages.text, c) == h.text + text;
    assert TracksThought(s.reasoning, s.response, c, h') by { SameThought(s.reasoning, s.response, c, h, h'); }
    forall i ensures TracksCall(s'.tools, h', i) {
      assert TracksCall(s.tools, h, i);
    }
  }

  lemma {:induction false} SameThought(r: Reasoning, response: string, c: int, h: Heard, h': Heard)
    requires TracksThought(r, response, c, h) && h'.closed == h.closed && h'.thinking == h.thinking
    ensures TracksThought(r, response, c, h')
  {
  }

  lemma {:induction false} HandleReasoningTracks(s: State, c: int, h: Heard, text: string)
    requires Tracks(s, c, h)
    ensures Tracks(HandleReasoning(s, c, text), c, HearReasoning(h, text))
  {
    var s', h' := HandleReasoning(s, c, text), HearReasoning(h, text);
    forall i ensures TracksCall(s'.tools, h', i) {
      assert TracksCall(s.tools, h, i);
    }
    assert "" + text == text;
  }

  lemma {:induction false} ThisCallTracks(t: Tools, h: Heard, i: int, d: ToolDelta)
    requires TracksCall(t, h, i)
    ensures TracksCall(BufferArguments(NoteTool(t, i, d), i, d.arguments), HearTool(h, i, d), i)
  {
    hide NoteTool, HearTool, CallOf;
    NoteTables(t, i, d);
    NoteIds(t, i, d, i);
    HeardCall(h, i, d);
  }

  /** Which calls have an id after a delta. */
  lemma {:induction false} NoteIds(t: Tools, i: int, d: ToolDelta, j: int)
    ensures var t1 := NoteTool(t, i, d);
            && (j in t1.callIds <==> j in t.callIds || (j == i && Get(t.callIds, i) == "" && d.id != ""))
            && (j != i ==> Get(t1.callIds, j) == Get(t.callIds, j) && Get(t1.names, j) == Get(t.names, j))
  {
  }

  lemma {:induction false} OtherCallTracks(t: Tools, h: Heard, i: int, d: ToolDelta, j: int)
    requires TracksCall(t, h, j) && j != i
    ensures TracksCall(BufferArguments(NoteTool(t, i, d), i, d.arguments), HearTool(h, i, d), j)
  {
    hide NoteTool;
    NoteTables(t, i, d);
    NoteIds(t, i, d, j);
  }

  lemma {:induction false} HandleToolTracks(s: State, c: int, h: Heard, i: int, d: ToolDelta)
    requires Tracks(s, c, h)
    ensures Tracks(HandleTool(s, i, d), c, HearTool(h, i, d))
  {
    hide TracksThought, HandleTool, NoteTool, TracksCall, Get;
    var s', h' := HandleTool(s, i, d), HearTool(h, i, d);
    SameThought(s.reasoning, s.response, c, h, h');
    HandleToolTables(s, i, d);
    forall j ensures TracksCall(s'.tools, h', j) {
      assert TracksCall(s.tools, h, j);
      if j == i {
        ThisCallTracks(s.tools, h, i, d);
      } else {
        OtherCallTracks(s.tools, h, i, d, j);
      }
      SameTables(BufferArguments(NoteTool(s.tools, i, d), i, d.arguments), s'.tools, h', j);
    }
  }

  lemma {:induction false} SameTables(t: Tools, t': Tools, h: Heard, j: int)
    requires TracksCall(t, h, j) && t'.callIds == t.callIds && t'.names == t.names && t'.args == t.args
    ensures TracksCall(t', h, j)
  {
  }

  /** What a tool delta does to the tables of ids, names and arguments. */
  lemma {:induction false} HandleToolTables(s: State, i: int, d: ToolDelta)
    ensures var t := HandleTool(s, i, d).tools;
            && t.callIds == NoteTool(s.tools, i, d).callIds && t.names == NoteTool(s.tools, i, d).names
            && t.args == BufferArguments(NoteTool(s.tools, i, d), i, d.arguments).args
  {
    hide AnnounceTool, FlushArguments;
    var s1 := s.(tools := NoteTool(s.tools, i, d));
    AnnounceShape(s1, i);
    var s2 := AnnounceTool(s1, i);
    FlushTables(s2.(tools := BufferArguments(s2.tools, i, d.arguments)), i);
  }

  lemma {:induction false} FlushTables(s: State, i: int)
    ensures var t := FlushArguments(s, i).tools;
            t.callIds == s.tools.callIds && t.names == s.tools.names && t.args == s.tools.args
  {
  }

  lemma {:induction false} HandleToolsFromTracks(s: State, c: int, h: Heard, ds: seq<ToolDelta>, k: nat)
    requires Tracks(s, c, h) && k <= |ds|
    ensures Tracks(HandleToolsFrom(s, ds, k), c, HearToolsFrom(h, ds, k))
    decreases |ds| - k
  {
    hide Tracks, HandleTool, HearTool;
    if k < |ds| {
      var i := CallIndex(ds[k], k);
      HandleToolTracks(s, c, h, i, ds[k]);
      HandleToolsFromTracks(HandleTool(s, i, ds[k]), c, HearTool(h, i, ds[k]), ds, k + 1);
    }
  }

  lemma {:induction false} CloseMessageTracks(s: State, c: int, h: Heard, k: int)
    requires Tracks(s, c, h)
    ensures Tracks(CloseMessage(s, k), c, h)
  {
    hide TracksThought, TracksCall;
  }

  lemma {:induction false} HandleToolsTracks(s: State, c: int, h: Heard, tools: Option<seq<ToolDelta>>)
    requires Tracks(s, c, h)
    ensures Tracks(HandleTools(s, c, tools), c, HearTools(h, tools))
  {
    hide Tracks, StopReasoning, CloseMessage;
    if tools.Some? {
      StopReasoningTracks(s, c, h);
      CloseMessageTracks(StopReasoning(s), c, Settle(h), c);
      SealTracks(CloseMessage(StopReasoning(s), c), c, h);
      HandleToolsFromTracks(CloseMessage(StopReasoning(s), c), c, Seal(h), tools.value, 0);
    }
  }

  lemma {:induction false} SealTracks(s: State, c: int, h: Heard)
    requires Tracks(s, c, Settle(h))
    ensures Tracks(s, c, Seal(h))
  {
    forall i ensures TracksCall(s.tools, Seal(h), i) {
      assert TracksCall(s.tools, Settle(h), i);
    }
  }

  lemma {:induction false} CloseMessagesTracks(s: State, c: int, h: Heard, keys: seq<int>)
    requires Tracks(s, c, h)
    ensures Tracks(CloseMessages(s, keys), c, h)
    decreases |keys|
  {
    hide Tracks, CloseMessage;
    if keys != [] {
      CloseMessageTracks(s, c, h, keys[0]);
      CloseMessagesTracks(CloseMessage(s, keys[0]), c, h, keys[1..]);
    }
  }

  lemma {:induction false} FinishToolTables(s: State, ctx: Context, i: int)
    ensures var s' := FinishTool(s, ctx, i);
            && s'.tools.callIds == s.tools.callIds && s'.tools.names == s.tools.names && s'.tools.args == s.tools.args
            && s'.reasoning == s.reasoning && s'.messages == s.messages
  {
    hide EmitFinal;
    EmitFinalKeeps(AssignFuncIndex(s, i), ctx, i, FuncOutIdx(s, i));
  }

  lemma {:induction false} FinishToolTracks(s: State, ctx: Context, c: int, h: Heard, i: int)
    requires Tracks(s, c, h)
    ensures Tracks(FinishTool(s, ctx, i), c, h)
  {
    hide TracksThought, TracksText, TracksCall;
    FinishToolTables(s, ctx, i);
    var t := FinishTool(s, ctx, i).tools;
    forall j ensures TracksCall(t, h, j) {
      assert TracksCall(s.tools, h, j);
      SameTables(s.tools, t, h, j);
    }
  }

  lemma {:induction false} FinishToolsTracks(s: State, ctx: Context, c: int, h: Heard, keys: seq<int>)
    requires Tracks(s, c, h)
    ensures Tracks(FinishTools(s, ctx, keys), c, h)
    decreases |keys|
  {
    hide Tracks, FinishTool;
    if keys != [] {
      FinishToolTracks(s, ctx, c, h, keys[0]);
      FinishToolsTracks(FinishTool(s, ctx, keys[0]), ctx, c, h, keys[1..]);
    }
  }

  lemma {:induction false} FinishedTracks(s: State, c: int, h: Heard)
    requires Tracks(s, c, h)
    ensures Tracks(s, c, h.(finished := true))
  {
    forall i ensures TracksCall(s.tools, h.(finished := true), i) {
      assert TracksCall(s.tools, h, i);
    }
  }

  lemma {:induction false} FinishTracks(s: State, ctx: Context, c: int, h: Heard)
    requires Tracks(s, c, h)
    ensures Tracks(Finish(s, ctx), c, Settle(h).(finished := true))
  {
    hide Tracks, CloseMessages, StopReasoning, FinishTools;
    var s1 := CloseMessages(s, Sorted(s.messages.added));
    CloseMessagesTracks(s, c, h, Sorted(s.messages.added));
    StopReasoningTracks(s1, c, h);
    var s2 := StopReasoning(s1);
    FinishToolsTracks(s2, ctx, c, Settle(h), Sorted(s2.tools.callIds.Keys));
    FinishedTracks(Finish(s, ctx), c, Settle(h));
  }

  lemma {:induction false} HandleChoiceTracks(s: State, ctx: Context, c: int, h: Heard, ch: Choice)
    requires Tracks(s, c, h) && ch.index == c
    ensures Tracks(HandleChoice(s, ctx, ch), c, Hear(h, ch))
  {
    hide Tracks, HandleContent, HandleReasoning, HandleTools, Finish, HearTools;
    HandleContentTracks(s, c, h, ch.content);
    var s1, h1 := HandleContent(s, c, ch.content), HearContent(h, ch.content);
    HandleReasoningTracks(s1, c, h1, ch.reasoning);
    var s2, h2 := HandleReasoning(s1, c, ch.reasoning), HearReasoning(h1, ch.reasoning);
    HandleToolsTracks(s2, c, h2, ch.tools);
    if ch.finishReason != "" {
      FinishTracks(HandleTools(s2, c, ch.tools), ctx, c, HearTools(h2, ch.tools));
    }
  }

  lemma {:induction false} OutputTracks(s: State, ctx: Context, c: int, h: Heard)
    requires Tracks(s, c, h) && h.thinking.None? && s.custom == ctx.custom
    ensures Output(s, ctx) == Expected(ctx, s.response, c, h)
  {
    forall i ensures Call(Get(s.tools.callIds, i), Get(s.tools.names, i), Get(s.tools.args, i)) == CallOf(h.calls, i) {
      assert TracksCall(s.tools, h, i);
    }
    forall i ensures i in s.tools.callIds <==> i in Named(h.calls) {
      assert TracksCall(s.tools, h, i);
    }
    assert s.tools.callIds.Keys == Named(h.calls);
    OutputToolsHeard(s, ctx, h.calls, Sorted(Named(h.calls)));
    if h.text != "" {
      SortedOne(s.messages.added, c);
      OutputOne(s, c);
    } else {
      assert Sorted({}) == [];
    }
  }

  /** The stream has been completed, and its last event carries this output. */
  predicate CompletedWith(s: State, output: seq<Item>) {
    s.started && s.completed && |s.log| > 0 && s.log[|s.log| - 1].body == Completed(s.response, output)
  }

  lemma {:induction false} CompleteTracks(s: State, ctx: Context, c: int, h: Heard, ch: Choice)
    requires Tracks(s, c, h) && h.thinking.None? && s.custom == ctx.custom && ch.finishReason != ""
    ensures var s' := Complete(s, ctx, [ch]);
            CompletedWith(s', Expected(ctx, s.response, c, h)) && s'.response == s.response
  {
    hide TracksThought, TracksText, TracksCalls;
    OutputTracks(s, ctx, c, h);
    assert [ch][0].finishReason != "";
  }

  lemma {:induction false} Finishes(h: Heard, ch: Choice)
    requires ch.finishReason != ""
    ensures Hear(h, ch).thinking.None?
  {
  }

  /** Some event carries this body. */
  predicate Carries(log: seq<Event>, body: Body) {
    exists k :: 0 <= k < |log| && log[k].body == body
  }

  predicate CarriesLast(log: seq<Event>, body: Body) {
    |log| > 0 && log[|log| - 1].body == body
  }

  lemma {:induction false} RunOutput(s: State, ctx: Context, c: int, h: Heard, chunks: seq<Chunk>)
    requires Tracks(s, c, h) && s.custom == ctx.custom && AllSingle(chunks, c) && Finishing(Said(chunks))
    ensures var s', body := Run(s, ctx, chunks),
        Completed(s.response, Expected(ctx, s.response, c, HearUntil(h, Said(chunks))));
            && s'.response == s.response && Carries(s'.log, body)
            && (Framed(Said(chunks)) ==> CarriesLast(s'.log, body))
    decreases |chunks|
  {
    hide TracksThought, TracksText, TracksCalls, Convert, Complete, HandleChoice, Hear, Expected, AllSilent;
    SaidFirst(chunks, c);
    ConvertOne(s, ctx, chunks[0], c);
    var s1, rest := Convert(s, ctx, chunks[0]), Said(chunks[1..]);
    if !Relevant(chunks[0]) || chunks[0].choices.value == [] {
      RunOutput(s, ctx, c, h, chunks[1..]);
    } else {
      var ch := chunks[0].choices.value[0];
      HandleChoiceTracks(s, ctx, c, h, ch);
      var h1 := Hear(h, ch);
      if ch.finishReason != "" {
        Finishes(h, ch);
        CompleteTracks(HandleChoice(s, ctx, ch), ctx, c, h1, ch);
        assert s1.log[|s1.log| - 1].body == Completed(s.response, Expected(ctx, s.response, c, h1));
        RunExtends(s1, ctx, chunks[1..]);
        assert Run(s, ctx, chunks).log[|s1.log| - 1] == s1.log[|s1.log| - 1];
        if Framed(Said(chunks)) {
          RunSilent(s1, ctx, c, chunks[1..]);
        }
      } else {
        NoFinish(HandleChoice(s, ctx, ch), ctx, ch);
        FinishLater(ch, rest);
        RunOutput(s1, ctx, c, h1, chunks[1..]);
      }
    }
  }

  lemma {:induction false} FinishLater(ch: Choice, rest: seq<Choice>)
    requires Finishing([ch] + rest) && ch.finishReason == ""
    ensures Finishing(rest)
  {
    var choices := [ch] + rest;
    var k :| 0 <= k < |choices| && choices[k].finishReason != "";
    assert rest[k - 1] == choices[k];
  }

  /** Every single-choice stream with a finish reason, fair or not, sends `response.completed` with
      what it said up to that reason as output; and sends it last, if it says nothing after. */
  lemma {:induction false} OutputExact(ctx: Context, chunks: seq<Chunk>, c: int)
    requires AllSingle(chunks, c) && Finishing(Said(chunks))
    ensures var s := Stream(ctx, chunks);
            var body := Completed(s.response, Expected(ctx, s.response, c, HearUntil(SILENCE, Said(chunks))));
            && s.response == ResponseId(ctx, chunks) && Carries(s.log, body)
            && (Framed(Said(chunks)) ==> CarriesLast(s.log, body))
    decreases |chunks|
  {
    hide HandleChoices, Complete, Hear, Expected, TracksThought, TracksText, TracksCalls, AllSilent;
    assert Said(chunks) != [];
    var first := chunks[0];
    SaidFirst(chunks, c);
    if !Relevant(first) {
      assert Convert(INITIAL_STATE, ctx, first) == INITIAL_STATE;
      OutputExact(ctx, chunks[1..], c);
    } else {
      var s := Start(INITIAL_STATE, ctx, first.id);
      StartTracks(ctx, first.id, c);
      StartTwice(ctx, first);
      RunOutput(s, ctx, c, SILENCE, chunks);
    }
  }

  lemma {:induction false} StartTracks(ctx: Context, id: string, c: int)
    ensures var s := Start(INITIAL_STATE, ctx, id);
            && Tracks(s, c, SILENCE) && s.custom == ctx.custom && s.started
            && s.response == (if id == "" then ctx.freshId else id)
  {
  }

  lemma {:induction false} StartTwice(ctx: Context, first: Chunk)
    requires Relevant(first)
    ensures Convert(INITIAL_STATE, ctx, first) == Convert(Start(INITIAL_STATE, ctx, first.id), ctx, first)
  {
    hide HandleChoices, Complete;
    assert Start(Start(INITIAL_STATE, ctx, first.id), ctx, first.id) == Start(INITIAL_STATE, ctx, first.id);
  }
}

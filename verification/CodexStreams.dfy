/** Whole single-choice streams: which of them become well-formed event streams, and what their
    final output is. */
module CodexStreams {
  import opened Options
  import opened ResponsesEvents
  import opened SortedKeys
  import opened OpenAIToCodex
  import opened CodexStreamSafety
  import opened CodexStreamExact
  import opened CodexLateChoices

  // ---------------------------------------------------------------- framing

  predicate Relevant(chunk: Chunk) {
    (chunk.objectType == "" || chunk.objectType == "chat.completion.chunk") && chunk.choices.Some?
  }

  /** A chunk of a single-choice stream has at most one choice, always with the same index. */
  predicate Single(chunk: Chunk, c: int) {
    Relevant(chunk) ==> |chunk.choices.value| <= 1 && forall ch :: ch in chunk.choices.value ==> ch.index == c
  }

  predicate AllSingle(chunks: seq<Chunk>, c: int) {
    forall k :: 0 <= k < |chunks| ==> Single(chunks[k], c)
  }

  /** The choices of a stream, in order. */
  function Said(chunks: seq<Chunk>): seq<Choice> {
    if chunks == [] then []
    else (if Relevant(chunks[0]) then chunks[0].choices.value else []) + Said(chunks[1..])
  }

  predicate Silent(ch: Choice) {
    ch.content == "" && ch.reasoning == "" && ch.tools.None? && ch.finishReason == ""
  }

  predicate AllSilent(choices: seq<Choice>) {
    forall k :: 0 <= k < |choices| ==> Silent(choices[k])
  }

  /** One choice carries a finish reason, and nothing is said after it. */
  predicate Framed(choices: seq<Choice>) {
    choices != [] &&
    if choices[0].finishReason != "" then AllSilent(choices[1..]) else Framed(choices[1..])
  }

  predicate Fair(h: Heard, custom: set<string>, choices: seq<Choice>)
    decreases |choices|
  {
    choices == [] ||
    (FairChoice(h, custom, choices[0])
     && (choices[0].finishReason != "" || Fair(Hear(h, choices[0]), custom, choices[1..])))
  }

  /** The choices are fair up to a first finish reason, and mute after it. */
  predicate EndsWell(h: Heard, custom: set<string>, choices: seq<Choice>)
    decreases |choices|
  {
    && choices != [] && FairChoice(h, custom, choices[0])
    && (if choices[0].finishReason != "" then Mute(Hear(h, choices[0]), Hear(h, choices[0]), custom, choices[1..])
        else EndsWell(Hear(h, choices[0]), custom, choices[1..]))
  }

  predicate Finishing(choices: seq<Choice>) {
    exists k :: 0 <= k < |choices| && choices[k].finishReason != ""
  }

  /** What is heard up to the first finish reason. */
  function HearUntil(h: Heard, choices: seq<Choice>): Heard
    decreases |choices|
  {
    if choices == [] then h
    else if choices[0].finishReason != "" then Hear(h, choices[0])
    else HearUntil(Hear(h, choices[0]), choices[1..])
  }

  function HearAll(h: Heard, choices: seq<Choice>): Heard
    decreases |choices|
  {
    if choices == [] then h else HearAll(Hear(h, choices[0]), choices[1..])
  }

  // ---------------------------------------------------------------- the final output

  function HeardTools(ctx: Context, calls: map<int, Call>, keys: seq<int>): seq<Item> {
    if keys == [] then []
    else
      var call := CallOf(calls, keys[0]);
      [ToolItem(ctx, ctx.custom, call.id, call.name, call.arguments)] + HeardTools(ctx, calls, keys[1..])
  }

  function Named(calls: map<int, Call>): set<int> {
    set i | i in calls && calls[i].id != ""
  }

  /** The output a stream should end with: its runs of reasoning, its text, its calls by index. */
  function Expected(ctx: Context, response: string, c: int, h: Heard): seq<Item> {
    Segments(response, c, h.closed)
    + (if h.text == "" then [] else [MessageItem(MsgId(response, c), h.text)])
    + HeardTools(ctx, h.calls, Sorted(Named(h.calls)))
  }

  lemma {:induction false} OutputToolsHeard(s: State, ctx: Context, calls: map<int, Call>, keys: seq<int>)
    requires s.custom == ctx.custom
    requires forall i :: Call(Get(s.tools.callIds, i), Get(s.tools.names, i), Get(s.tools.args, i)) == CallOf(calls, i)
    ensures OutputTools(s, ctx, keys) == HeardTools(ctx, calls, keys)
  {
    if keys != [] {
      OutputToolsHeard(s, ctx, calls, keys[1..]);
      assert Call(Get(s.tools.callIds, keys[0]), Get(s.tools.names, keys[0]), Get(s.tools.args, keys[0]))
          == CallOf(calls, keys[0]);
    }
  }

  lemma {:induction false} OutputExpected(s: State, ctx: Context, c: int, h: Heard)
    requires Sound(s, c, h) && s.custom == ctx.custom
    ensures Output(s, ctx) == Expected(ctx, s.response, c, h)
  {
    hide Read, Reads, ToolsPlaced, AllFlushed;
    forall i ensures Call(Get(s.tools.callIds, i), Get(s.tools.names, i), Get(s.tools.args, i)) == CallOf(h.calls, i) {
      assert SameCall(s.tools, h.calls, h.announced, i);
    }
    forall i ensures i in s.tools.callIds <==> i in Named(h.calls) {
      assert SameCall(s.tools, h.calls, h.announced, i);
    }
    assert s.tools.callIds.Keys == Named(h.calls);
    OutputToolsHeard(s, ctx, h.calls, Sorted(Named(h.calls)));
    if h.text != "" {
      SortedOne(s.messages.added, c);
      OutputOne(s, c);
    } else {
      assert Sorted({}) == [];
    }
  }

  lemma {:induction false} OutputOne(s: State, c: int)
    ensures OutputMessages(s, [c]) == [MessageItem(MsgId(s.response, c), Get(s.messages.text, c))]
  {
    assert [c][1..] == [];
  }

  // ---------------------------------------------------------------- chunk by chunk

  lemma {:induction false} StartSound(ctx: Context, id: string, c: int)
    ensures var s := Start(INITIAL_STATE, ctx, id);
            Sound(s, c, SILENCE) && s.custom == ctx.custom && s.started
            && s.response == (if id == "" then ctx.freshId else id)
  {
    var resp := if id == "" then ctx.freshId else id;
    var s1 := State(0, true, resp, ctx.custom, 0, false, NO_REASONING, NO_MESSAGES, NO_TOOLS, []);
    var s2 := Emit(s1, Created(resp));
    EmitRead(s1, Created(resp));
    EmitRead(s2, InProgress(resp));
    assert Start(INITIAL_STATE, ctx, id) == Emit(s2, InProgress(resp));
  }

  /** A stream that has ended well: completed, and the last event carries this output. */
  predicate Ended(s: State, output: seq<Item>) {
    s.started && s.completed && WellFormed(s.log)
    && |s.log| > 0 && s.log[|s.log| - 1].body == Completed(s.response, output)
  }

  lemma {:induction false} CompleteEnds(s: State, ctx: Context, c: int, h: Heard, ch: Choice)
    requires Sound(s, c, h) && s.custom == ctx.custom && AllClosed(Items(s)) && ch.finishReason != ""
    ensures Ended(Complete(s, ctx, [ch]), Expected(ctx, s.response, c, h))
    ensures Complete(s, ctx, [ch]).response == s.response
  {
    hide ReasoningTracks, MessageTracks, ToolsPlaced, AllFlushed, SameCalls;
    OutputExpected(s, ctx, c, h);
    assert [ch][0].finishReason != "";
    EmitRead(s.(completed := true), Completed(s.response, Output(s, ctx)));
  }

  lemma {:induction false} ConvertOne(s: State, ctx: Context, chunk: Chunk, c: int)
    requires s.started && Single(chunk, c)
    ensures !Relevant(chunk) || chunk.choices.value == [] ==> Convert(s, ctx, chunk) == s
    ensures Relevant(chunk) && chunk.choices.value != [] ==>
              var ch := chunk.choices.value[0];
              chunk.choices.value == [ch] && Convert(s, ctx, chunk) == Complete(HandleChoice(s, ctx, ch), ctx, [ch])
  {
    if Relevant(chunk) && chunk.choices.value != [] {
      var ch := chunk.choices.value[0];
      assert chunk.choices.value == [ch] && [ch][1..] == [];
      assert HandleChoices(s, ctx, [ch]) == HandleChoices(HandleChoice(s, ctx, ch), ctx, []);
    }
  }

  lemma {:induction false} SilentChoice(s: State, ctx: Context, ch: Choice)
    requires Silent(ch)
    ensures Complete(HandleChoice(s, ctx, ch), ctx, [ch]) == s
  {
  }

  lemma {:induction false} SilentHeard(h: Heard, ch: Choice)
    requires Silent(ch)
    ensures Hear(h, ch) == h
  {
  }

  lemma {:induction false} HearSilent(h: Heard, choices: seq<Choice>)
    requires AllSilent(choices)
    ensures HearAll(h, choices) == h
    decreases |choices|
  {
    if choices != [] {
      SilentHeard(h, choices[0]);
      HearSilent(h, choices[1..]);
    }
  }

  lemma {:induction false} SaidFirst(chunks: seq<Chunk>, c: int)
    requires chunks != [] && AllSingle(chunks, c)
    ensures AllSingle(chunks[1..], c)
    ensures var rest := Said(chunks[1..]);
            if Relevant(chunks[0]) && chunks[0].choices.value != []
            then Said(chunks) == [chunks[0].choices.value[0]] + rest && chunks[0].choices.value[0].index == c
                 && Said(chunks)[1..] == rest
            else Said(chunks) == rest
  {
    assert Single(chunks[0], c);
    if Relevant(chunks[0]) && chunks[0].choices.value != [] {
      var ch := chunks[0].choices.value[0];
      assert chunks[0].choices.value == [ch];
    }
  }

  lemma {:induction false} RunSilent(s: State, ctx: Context, c: int, chunks: seq<Chunk>)
    requires s.started && AllSingle(chunks, c) && AllSilent(Said(chunks))
    ensures Run(s, ctx, chunks) == s
    decreases |chunks|
  {
    hide Convert, Complete, HandleChoice;
    if chunks != [] {
      SaidFirst(chunks, c);
      ConvertOne(s, ctx, chunks[0], c);
      if Relevant(chunks[0]) && chunks[0].choices.value != [] {
        assert Silent(Said(chunks)[0]);
        SilentChoice(s, ctx, chunks[0].choices.value[0]);
      }
      forall k | 0 <= k < |Said(chunks[1..])| ensures Silent(Said(chunks[1..])[k]) {
        assert Said(chunks[1..])[k] in Said(chunks);
      }
      RunSilent(s, ctx, c, chunks[1..]);
    }
  }

  lemma {:induction false} RunExtends(s: State, ctx: Context, chunks: seq<Chunk>)
    ensures s.log <= Run(s, ctx, chunks).log
    ensures s.started ==> Run(s, ctx, chunks).response == s.response
    decreases |chunks|
  {
    if chunks != [] {
      ConvertExtends(s, ctx, chunks[0]);
      RunExtends(Convert(s, ctx, chunks[0]), ctx, chunks[1..]);
    }
  }

  lemma {:induction false} ConvertExtends(s: State, ctx: Context, chunk: Chunk)
    ensures s.log <= Convert(s, ctx, chunk).log
    ensures s.started ==> Convert(s, ctx, chunk).started && Convert(s, ctx, chunk).response == s.response
  {
    hide HandleChoice;
  }

  // ---------------------------------------------------------------- main results

  /** After the end the rest of the stream leaves the events as they are exactly if it is mute. */
  lemma {:induction false} LateRun(s: State, ctx: Context, c: int, end: Heard, h: Heard, chunks: seq<Chunk>)
    requires Late(s, end, h) && WellFormed(s.log) && AllSingle(chunks, c)
    ensures var s' := Run(s, ctx, chunks);
            && (WellFormed(s'.log) <==> Mute(end, h, s.custom, Said(chunks)))
            && (Mute(end, h, s.custom, Said(chunks)) ==>
                s'.log == s.log && s'.response == s.response && s'.started && s'.completed)
    decreases |chunks|
  {
    hide Late, WellFormed, Convert, Complete, HandleChoice, MuteChoice, HearLate;
    if chunks == [] {
      assert s.started && s.completed by { LateFlags(s, end, h); }
    } else {
      SaidFirst(chunks, c);
      assert s.started by { LateFlags(s, end, h); }
      ConvertOne(s, ctx, chunks[0], c);
      if !Relevant(chunks[0]) || chunks[0].choices.value == [] {
        LateRun(s, ctx, c, end, h, chunks[1..]);
      } else {
        var ch, s1 := chunks[0].choices.value[0], Convert(s, ctx, chunks[0]);
        LateChoice(s, ctx, end, h, ch);
        if MuteChoice(end, h, s.custom, ch) {
          LateRun(s1, ctx, c, end, HearLate(h, ch), chunks[1..]);
        } else {
          RunExtends(s1, ctx, chunks[1..]);
          OverBreaks(s.log, Run(s, ctx, chunks).log);
        }
      }
    }
  }

  lemma {:induction false} LateFlags(s: State, end: Heard, h: Heard)
    requires Late(s, end, h)
    ensures s.started && s.completed
  {
  }

  lemma {:induction false} NotOver(s: State, c: int, h: Heard)
    requires Sound(s, c, h)
    ensures !WellFormed(s.log)
  {
    hide Read;
  }

  /** From a sound state: the rest of the stream ends well exactly as `EndsWell` says, and then with
      the expected output. */
  lemma {:induction false} RunExact(s: State, ctx: Context, c: int, h: Heard, chunks: seq<Chunk>)
    requires Sound(s, c, h) && s.started && s.custom == ctx.custom && !h.finished && AllSingle(chunks, c)
    ensures var s' := Run(s, ctx, chunks);
            && (WellFormed(s'.log) <==> EndsWell(h, ctx.custom, Said(chunks)))
            && (EndsWell(h, ctx.custom, Said(chunks)) ==>
                  Ended(s', Expected(ctx, s.response, c, HearUntil(h, Said(chunks)))) && s'.response == s.response)
    decreases |chunks|
  {
    hide Sound, Convert, Complete, HandleChoice, FairChoice, Hear, Expected, Read, Mute;
    if chunks == [] {
      NotOver(s, c, h);
    } else {
      SaidFirst(chunks, c);
      ConvertOne(s, ctx, chunks[0], c);
      var s1, rest := Convert(s, ctx, chunks[0]), Said(chunks[1..]);
      if !Relevant(chunks[0]) || chunks[0].choices.value == [] {
        RunExact(s, ctx, c, h, chunks[1..]);
      } else {
        var ch := chunks[0].choices.value[0];
        if FairChoice(h, ctx.custom, ch) {
          HandleChoiceSound(s, ctx, c, h, ch);
          var h1 := Hear(h, ch);
          if ch.finishReason != "" {
            FinishFair(h, ctx.custom, ch);
            CompleteEnds(HandleChoice(s, ctx, ch), ctx, c, h1, ch);
            EndLate(HandleChoice(s, ctx, ch), ctx, c, h1, ch);
            SameSettings(HandleChoice(s, ctx, ch), ctx, ch);
            LateRun(s1, ctx, c, h1, h1, chunks[1..]);
          } else {
            NoFinish(HandleChoice(s, ctx, ch), ctx, ch);
            RunExact(s1, ctx, c, h1, chunks[1..]);
          }
        } else {
          UnfairChoiceBreaks(s, ctx, c, h, ch);
          CompleteExtends(HandleChoice(s, ctx, ch), ctx, [ch]);
          RunExtends(s1, ctx, chunks[1..]);
          BrokenStays(HandleChoice(s, ctx, ch).log, Run(s, ctx, chunks).log);
        }
      }
    }
  }

  lemma {:induction false} SameSettings(s: State, ctx: Context, ch: Choice)
    ensures Complete(s, ctx, [ch]).custom == s.custom
  {
  }

  lemma {:induction false} NoFinish(s: State, ctx: Context, ch: Choice)
    requires ch.finishReason == ""
    ensures Complete(s, ctx, [ch]) == s
  {
  }

  lemma {:induction false} CompleteExtends(s: State, ctx: Context, choices: seq<Choice>)
    ensures s.log <= Complete(s, ctx, choices).log
  {
  }

  /** The id the response gets: that of the first chunk that counts, or a fresh one. */
  function ResponseId(ctx: Context, chunks: seq<Chunk>): string {
    if chunks == [] then ""
    else if !Relevant(chunks[0]) then ResponseId(ctx, chunks[1..])
    else if chunks[0].id == "" then ctx.freshId else chunks[0].id
  }

  /** Every single-choice stream: its events are well formed exactly if it is fair up to a finish
      reason and mute after it, and then they end with the expected output. */
  lemma {:induction false} StreamExact(ctx: Context, chunks: seq<Chunk>, c: int)
    requires AllSingle(chunks, c)
    ensures var s := Stream(ctx, chunks);
            && (WellFormed(s.log) <==> EndsWell(SILENCE, ctx.custom, Said(chunks)))
            && (EndsWell(SILENCE, ctx.custom, Said(chunks)) ==>
                  s.response == ResponseId(ctx, chunks)
                  && Ended(s, Expected(ctx, s.response, c, HearUntil(SILENCE, Said(chunks)))))
    decreases |chunks|
  {
    hide Sound, HandleChoices, Complete, FairChoice, Hear, Expected, Mute;
    if chunks != [] {
      hide Read;
      var first := chunks[0];
      SaidFirst(chunks, c);
      if !Relevant(first) {
        assert Convert(INITIAL_STATE, ctx, first) == INITIAL_STATE;
        StreamExact(ctx, chunks[1..], c);
      } else {
        var s := Start(INITIAL_STATE, ctx, first.id);
        StartSound(ctx, first.id, c);
        assert Start(s, ctx, first.id) == s;
        assert Convert(INITIAL_STATE, ctx, first) == Convert(s, ctx, first);
        RunExact(s, ctx, c, SILENCE, chunks);
      }
    }
  }

  // ---------------------------------------------------------------- the usual streams

  lemma {:induction false} SilentMute(end: Heard, h: Heard, custom: set<string>, choices: seq<Choice>)
    requires AllSilent(choices)
    ensures Mute(end, h, custom, choices)
    decreases |choices|
  {
    if choices != [] {
      assert Silent(choices[0]);
      SilentMute(end, h, custom, choices[1..]);
    }
  }

  /** If one choice carries a finish reason, and nothing is said after it. */
  lemma {:induction false} FramedEnds(h: Heard, custom: set<string>, choices: seq<Choice>)
    requires Framed(choices)
    ensures EndsWell(h, custom, choices) <==> Fair(h, custom, choices)
    ensures HearUntil(h, choices) == HearAll(h, choices) && Finishing(choices)
    decreases |choices|
  {
    hide FairChoice, Hear, Mute;
    var h1 := Hear(h, choices[0]);
    if choices[0].finishReason != "" {
      SilentMute(h1, h1, custom, choices[1..]);
      HearSilent(h1, choices[1..]);
    } else {
      FramedEnds(h1, custom, choices[1..]);
      var k :| 0 <= k < |choices[1..]| && choices[1..][k].finishReason != "";
      assert choices[k + 1].finishReason != "";
    }
  }

  // ---------------------------------------------------------------- streams that are not fair

  function ChunkOf(ch: Choice): Chunk {
    Chunk("", "r", Some([ch]))
  }

  lemma {:induction false} TwoChunks(a: Choice, b: Choice)
    requires a.index == b.index == 0 && a.finishReason == "" && b.finishReason != ""
    ensures var chunks := [ChunkOf(a), ChunkOf(b)];
            AllSingle(chunks, 0) && Said(chunks) == [a, b] && Framed(Said(chunks))
  {
    var chunks := [ChunkOf(a), ChunkOf(b)];
    assert chunks[1..] == [ChunkOf(b)] && [ChunkOf(b)][1..] == [];
    assert Said([ChunkOf(b)]) == [b] + [] == [b];
    assert [a] + [b] == [a, b] && [a, b][1..] == [b];
  }

  /** Text that comes after text and a tool_calls delta goes to an item that is already closed. */
  lemma {:induction false} TextAfterToolsBreaks(ctx: Context)
    ensures var first, last := Choice(0, "a", "", Some([]), ""), Choice(0, "b", "", None, "stop");
            !WellFormed(Stream(ctx, [ChunkOf(first), ChunkOf(last)]).log)
  {
    hide Stream, Read, FairFinish;
    var first, last := Choice(0, "a", "", Some([]), ""), Choice(0, "b", "", None, "stop");
    TwoChunks(first, last);
    StreamExact(ctx, [ChunkOf(first), ChunkOf(last)], 0);
    FramedEnds(SILENCE, ctx.custom, [first, last]);
    assert Hear(SILENCE, first).sealed;
    assert [first, last][1..] == [last];
  }

  /** A call whose name never comes is closed without having been announced. */
  lemma {:induction false} NamelessCallBreaks(ctx: Context)
    ensures var call := ToolDelta(Some(0), "call_1", "", "");
            var first, last := Choice(0, "", "", Some([call]), ""), Choice(0, "", "", None, "tool_calls");
            !WellFormed(Stream(ctx, [ChunkOf(first), ChunkOf(last)]).log)
  {
    hide Stream, Read;
    var call := ToolDelta(Some(0), "call_1", "", "");
    var first, last := Choice(0, "", "", Some([call]), ""), Choice(0, "", "", None, "tool_calls");
    TwoChunks(first, last);
    StreamExact(ctx, [ChunkOf(first), ChunkOf(last)], 0);
    FramedEnds(SILENCE, ctx.custom, [first, last]);
    var h := Hear(SILENCE, first);
    var sealed := Seal(SILENCE);
    assert HearToolsFrom(sealed, [call], 0) == HearToolsFrom(HearTool(sealed, 0, call), [call], 1);
    assert h == HearTool(sealed, 0, call);
    assert 0 in h.calls && h.calls[0].id == "call_1" && 0 !in h.announced;
    assert !FairCall(h, 0);
    assert [first, last][1..] == [last];
  }
}

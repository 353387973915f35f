/** No text is lost on the way to the client: streams of any number of choices, fair or not. */
module CodexConservation {
  import opened Options
  import opened ResponsesEvents
  import opened SortedKeys
  import opened OpenAIToCodex
  import opened CodexStreams

  // ---------------------------------------------------------------- what the events carry

  /** The deltas of the message item `id`, joined. */
  function Spoken(log: seq<Event>, id: ItemId): string {
    if log == [] then ""
    else
      var before, body := Spoken(log[..|log| - 1], id), log[|log| - 1].body;
      if body.Delta? && body.channel.OutputText? && body.id == id then before + body.delta else before
  }

  /** The deltas of all reasoning, joined. */
  function Thoughts(log: seq<Event>): string {
    if log == [] then ""
    else
      var before, body := Thoughts(log[..|log| - 1]), log[|log| - 1].body;
      if body.Delta? && body.channel.SummaryText? then before + body.delta else before
  }

  // ---------------------------------------------------------------- what the upstream sends

  /** The content of choice `c`. */
  function ContentOf(choices: seq<Choice>, c: int): string {
    if choices == [] then ""
    else (if choices[0].index == c then choices[0].content else "") + ContentOf(choices[1..], c)
  }

  function ReasoningOf(choices: seq<Choice>): string {
    if choices == [] then "" else choices[0].reasoning + ReasoningOf(choices[1..])
  }

  // ---------------------------------------------------------------- each step

  /** From `s` to `r` message `id` gets this text, and the reasoning this. */
  predicate Says(s: State, r: State, id: ItemId, text: string, thought: string) {
    Spoken(r.log, id) == Spoken(s.log, id) + text && Thoughts(r.log) == Thoughts(s.log) + thought
  }

  lemma {:induction false} EmitSays(s: State, body: Body, id: ItemId)
    ensures Says(s, Emit(s, body), id,
                 if body.Delta? && body.channel.OutputText? && body.id == id then body.delta else "",
                 if body.Delta? && body.channel.SummaryText? then body.delta else "")
  {
    assert Emit(s, body).log[..|s.log|] == s.log;
    assert Spoken(s.log, id) + "" == Spoken(s.log, id) && Thoughts(s.log) + "" == Thoughts(s.log);
  }

  lemma {:induction false} SaysNothing(s: State, r: State, id: ItemId)
    requires r.log == s.log
    ensures Says(s, r, id, "", "")
  {
    hide Spoken, Thoughts;
    assert Spoken(s.log, id) + "" == Spoken(s.log, id) && Thoughts(s.log) + "" == Thoughts(s.log);
  }

  lemma {:induction false} SaysBoth(s: State, t: State, r: State, id: ItemId, a: string, b: string,
                                    x: string, y: string)
    requires Says(s, t, id, a, x) && Says(t, r, id, b, y)
    ensures Says(s, r, id, a + b, x + y)
    ensures a == "" && x == "" ==> Says(s, r, id, b, y)
    ensures b == "" && y == "" ==> Says(s, r, id, a, x)
  {
    hide Spoken, Thoughts;
    assert Spoken(s.log, id) + a + b == Spoken(s.log, id) + (a + b);
    assert Thoughts(s.log) + x + y == Thoughts(s.log) + (x + y);
    assert "" + b == b && "" + y == y && a + "" == a && x + "" == x;
  }

  predicate Quiet(body: Body) {
    !body.Delta? || body.channel.Arguments?
  }

  lemma {:induction false} EmitQuiet(s: State, body: Body, id: ItemId)
    requires Quiet(body)
    ensures Says(s, Emit(s, body), id, "", "")
  {
    hide Says;
    EmitSays(s, body, id);
  }

  lemma {:induction false} ClosingQuiet(s: State, channel: Channel, item: ItemId, index: nat, text: string, done: Item,
                                        id: ItemId)
    ensures Says(s, EmitClosing(s, channel, item, index, text, done), id, "", "")
  {
    hide Says;
    var s1 := Emit(s, TextDone(channel, item, index, text));
    var s2 := Emit(s1, PartDone(channel, item, index, text));
    EmitQuiet(s, TextDone(channel, item, index, text), id);
    EmitQuiet(s1, PartDone(channel, item, index, text), id);
    EmitQuiet(s2, ItemDone(index, done), id);
    SaysBoth(s, s1, s2, id, "", "", "", "");
    SaysBoth(s, s2, Emit(s2, ItemDone(index, done)), id, "", "", "", "");
  }

  lemma {:induction false} StopReasoningQuiet(s: State, id: ItemId)
    ensures Says(s, StopReasoning(s), id, "", "")
  {
    hide Says, EmitClosing;
    if s.reasoning.id.None? {
      SaysNothing(s, s, id);
    } else {
      var now := s.reasoning;
      var item := ReasoningItem(now.id.value, now.buf);
      var t := EmitClosing(s, SummaryText, now.id.value, now.index, now.buf, item);
      ClosingQuiet(s, SummaryText, now.id.value, now.index, now.buf, item, id);
      SaysNothing(t, StopReasoning(s), id);
      SaysBoth(s, t, StopReasoning(s), id, "", "", "", "");
    }
  }

  lemma {:induction false} CloseMessageQuiet(s: State, c: int, id: ItemId)
    ensures Says(s, CloseMessage(s, c), id, "", "")
  {
    hide Spoken, Thoughts, EmitClosing;
    if c !in s.messages.added || c in s.messages.done {
      SaysNothing(s, s, id);
    } else {
      var item, text := MsgId(s.response, c), Get(s.messages.text, c);
      ClosingQuiet(AssignMsgIndex(s, c), OutputText, item, MsgOutIdx(s, c), text, MessageItem(item, text), id);
    }
  }

  lemma {:induction false} AnnounceMessageQuiet(s: State, c: int, id: ItemId)
    ensures Says(s, AnnounceMessage(s, c), id, "", "")
  {
    hide Spoken, Thoughts;
    SaysNothing(s, s, id);
    EmitQuiet(AssignMsgIndex(s, c), ItemAdded(MsgOutIdx(s, c), MessageItem(MsgId(s.response, c), "")), id);
  }

  lemma {:induction false} AddMessagePartQuiet(s: State, c: int, id: ItemId)
    ensures Says(s, AddMessagePart(s, c), id, "", "")
  {
    hide Spoken, Thoughts;
    SaysNothing(s, s, id);
    EmitQuiet(AssignMsgIndex(s, c), PartAdded(OutputText, MsgId(s.response, c), MsgOutIdx(s, c)), id);
  }

  lemma {:induction false} SaySays(s: State, c: int, text: string, id: ItemId)
    ensures Says(s, Say(s, c, text), id, if id == MsgId(s.response, c) then text else "", "")
  {
    hide Spoken, Thoughts;
    EmitSays(AssignMsgIndex(s, c), Delta(OutputText, MsgId(s.response, c), MsgOutIdx(s, c), text), id);
  }

  lemma {:induction false} HandleContentSays(s: State, c: int, text: string, id: ItemId)
    ensures Says(s, HandleContent(s, c, text), id, if id == MsgId(s.response, c) then text else "", "")
  {
    hide Says, StopReasoning, AnnounceMessage, AddMessagePart, Say;
    if text == "" {
      SaysNothing(s, s, id);
    } else {
      var s1 := StopReasoning(s);
      var s2 := AnnounceMessage(s1, c);
      var s3 := AddMessagePart(s2, c);
      StopReasoningQuiet(s, id);
      AnnounceMessageQuiet(s1, c, id);
      AddMessagePartQuiet(s2, c, id);
      SaySays(s3, c, text, id);
      SaysBoth(s, s1, s2, id, "", "", "", "");
      SaysBoth(s, s2, s3, id, "", "", "", "");
      SaysBoth(s, s3, Say(s3, c, text), id, "", if id == MsgId(s.response, c) then text else "", "", "");
    }
  }

  lemma {:induction false} OpenReasoningQuiet(s: State, c: int, id: ItemId)
    ensures Says(s, OpenReasoning(s, c), id, "", "")
  {
    hide Spoken, Thoughts;
    if s.reasoning.id.Some? {
      SaysNothing(s, s, id);
    } else {
      var item, n := RsId(s.response, c), s.nextIndex;
      var s1 := Emit(s, ItemAdded(n, ReasoningItem(item, "")));
      EmitQuiet(s, ItemAdded(n, ReasoningItem(item, "")), id);
      EmitQuiet(s1, PartAdded(SummaryText, item, n), id);
      SaysBoth(s, s1, Emit(s1, PartAdded(SummaryText, item, n)), id, "", "", "", "");
    }
  }

  lemma {:induction false} HandleReasoningSays(s: State, c: int, text: string, id: ItemId)
    ensures Says(s, HandleReasoning(s, c, text), id, "", text)
  {
    hide Spoken, Thoughts, OpenReasoning;
    if text == "" {
      SaysNothing(s, s, id);
    } else {
      OpenReasoningOpens(s, c);
      var s1 := OpenReasoning(s, c);
      OpenReasoningQuiet(s, c, id);
      EmitSays(s1, Delta(SummaryText, s1.reasoning.id.value, s1.reasoning.index, text), id);
      SaysBoth(s, s1, Think(s1, text), id, "", "", "", text);
    }
  }

  lemma {:induction false} AnnounceToolQuiet(s: State, i: int, id: ItemId)
    ensures Says(s, AnnounceTool(s, i), id, "", "")
  {
    hide Spoken, Thoughts;
    SaysNothing(s, s, id);
    var t := AssignFuncIndex(s.(tools := s.tools.(added := s.tools.added + {i})), i);
    EmitQuiet(t, ItemAdded(FuncOutIdx(s, i), AnnouncedItem(s, i)), id);
  }

  lemma {:induction false} FlushArgumentsQuiet(s: State, i: int, id: ItemId)
    ensures Says(s, FlushArguments(s, i), id, "", "")
  {
    hide Spoken, Thoughts;
    SaysNothing(s, s, id);
    var call, full, sent := Get(s.tools.callIds, i), Get(s.tools.args, i), IndexOf(s.tools.sent, i);
    if |full| > sent {
      EmitQuiet(AssignFuncIndex(s, i), Delta(Arguments, FcId(call), FuncOutIdx(s, i), full[sent..]), id);
    }
  }

  lemma {:induction false} HandleToolQuiet(s: State, i: int, d: ToolDelta, id: ItemId)
    ensures Says(s, HandleTool(s, i, d), id, "", "")
  {
    hide Spoken, Thoughts, NoteTool, AnnounceTool, BufferArguments, FlushArguments;
    var s0 := s.(tools := NoteTool(s.tools, i, d));
    var s1 := AnnounceTool(s0, i);
    var s2 := s1.(tools := BufferArguments(s1.tools, i, d.arguments));
    AnnounceToolQuiet(s0, i, id);
    FlushArgumentsQuiet(s2, i, id);
    SaysBoth(s, s1, FlushArguments(s2, i), id, "", "", "", "");
  }

  lemma {:induction false} HandleToolsFromQuiet(s: State, ds: seq<ToolDelta>, k: nat, id: ItemId)
    requires k <= |ds|
    ensures Says(s, HandleToolsFrom(s, ds, k), id, "", "")
    decreases |ds| - k
  {
    hide Says, HandleTool;
    if k == |ds| {
      SaysNothing(s, s, id);
    } else {
      var s1 := HandleTool(s, CallIndex(ds[k], k), ds[k]);
      HandleToolQuiet(s, CallIndex(ds[k], k), ds[k], id);
      HandleToolsFromQuiet(s1, ds, k + 1, id);
      SaysBoth(s, s1, HandleToolsFrom(s1, ds, k + 1), id, "", "", "", "");
    }
  }

  lemma {:induction false} HandleToolsQuiet(s: State, c: int, tools: Option<seq<ToolDelta>>, id: ItemId)
    ensures Says(s, HandleTools(s, c, tools), id, "", "")
  {
    hide Says, StopReasoning, CloseMessage, HandleToolsFrom;
    if tools.None? {
      SaysNothing(s, s, id);
    } else {
      var s1 := StopReasoning(s);
      var s2 := CloseMessage(s1, c);
      StopReasoningQuiet(s, id);
      CloseMessageQuiet(s1, c, id);
      HandleToolsFromQuiet(s2, tools.value, 0, id);
      SaysBoth(s, s1, s2, id, "", "", "", "");
      SaysBoth(s, s2, HandleToolsFrom(s2, tools.value, 0), id, "", "", "", "");
    }
  }

  lemma {:induction false} FinishToolQuiet(s: State, ctx: Context, i: int, id: ItemId)
    ensures Says(s, FinishTool(s, ctx, i), id, "", "")
  {
    hide Spoken, Thoughts;
    if Get(s.tools.callIds, i) == "" || i in s.tools.done {
      SaysNothing(s, s, id);
    } else {
      var t, index := AssignFuncIndex(s, i), FuncOutIdx(s, i);
      var call, name, args := Get(s.tools.callIds, i), Get(s.tools.names, i), FinalArguments(Get(s.tools.args, i));
      var t1 := Emit(t, TextDone(Arguments, FcId(call), index, args));
      var done := FunctionItem(FcId(call), call, name, args);
      EmitQuiet(t, ItemDone(index, CustomItem(CtcId(call), call, name, ctx.unwrap(args))), id);
      EmitQuiet(t, TextDone(Arguments, FcId(call), index, args), id);
      EmitQuiet(t1, ItemDone(index, done), id);
      SaysBoth(t, t1, Emit(t1, ItemDone(index, done)), id, "", "", "", "");
    }
  }

  lemma {:induction false} CloseMessagesQuiet(s: State, keys: seq<int>, id: ItemId)
    ensures Says(s, CloseMessages(s, keys), id, "", "")
    decreases |keys|
  {
    hide Says, CloseMessage;
    if keys == [] {
      SaysNothing(s, s, id);
    } else {
      CloseMessageQuiet(s, keys[0], id);
      CloseMessagesQuiet(CloseMessage(s, keys[0]), keys[1..], id);
      SaysBoth(s, CloseMessage(s, keys[0]), CloseMessages(s, keys), id, "", "", "", "");
    }
  }

  lemma {:induction false} FinishToolsQuiet(s: State, ctx: Context, keys: seq<int>, id: ItemId)
    ensures Says(s, FinishTools(s, ctx, keys), id, "", "")
    decreases |keys|
  {
    hide Says, FinishTool;
    if keys == [] {
      SaysNothing(s, s, id);
    } else {
      FinishToolQuiet(s, ctx, keys[0], id);
      FinishToolsQuiet(FinishTool(s, ctx, keys[0]), ctx, keys[1..], id);
      SaysBoth(s, FinishTool(s, ctx, keys[0]), FinishTools(s, ctx, keys), id, "", "", "", "");
    }
  }

  lemma {:induction false} FinishQuiet(s: State, ctx: Context, id: ItemId)
    ensures Says(s, Finish(s, ctx), id, "", "")
  {
    hide Says, CloseMessages, StopReasoning, FinishTools, Sorted;
    var s1 := CloseMessages(s, Sorted(s.messages.added));
    var s2 := StopReasoning(s1);
    CloseMessagesQuiet(s, Sorted(s.messages.added), id);
    StopReasoningQuiet(s1, id);
    FinishToolsQuiet(s2, ctx, Sorted(s2.tools.callIds.Keys), id);
    SaysBoth(s, s1, s2, id, "", "", "", "");
    SaysBoth(s, s2, Finish(s, ctx), id, "", "", "", "");
  }

  /** A choice gives its content to the message of its index, and its reasoning to the reasoning. */
  lemma {:induction false} HandleChoiceSays(s: State, ctx: Context, ch: Choice, c: int)
    ensures Says(s, HandleChoice(s, ctx, ch), MsgId(s.response, c),
                 if ch.index == c then ch.content else "", ch.reasoning)
  {
    hide Says, HandleContent, HandleReasoning, HandleTools, Finish;
    var id, a := MsgId(s.response, c), if ch.index == c then ch.content else "";
    var s1 := HandleContent(s, ch.index, ch.content);
    var s2 := HandleReasoning(s1, ch.index, ch.reasoning);
    var s3 := HandleTools(s2, ch.index, ch.tools);
    HandleContentSays(s, ch.index, ch.content, id);
    HandleReasoningSays(s1, ch.index, ch.reasoning, id);
    HandleToolsQuiet(s2, ch.index, ch.tools, id);
    FinishQuiet(s3, ctx, id);
    SaysBoth(s, s1, s2, id, a, "", "", ch.reasoning);
    assert a + "" == a && "" + ch.reasoning == ch.reasoning;
    SaysBoth(s, s2, s3, id, a, "", ch.reasoning, "");
    SaysBoth(s, s3, Finish(s3, ctx), id, a, "", ch.reasoning, "");
  }

  lemma {:induction false} HandleChoicesSay(s: State, ctx: Context, choices: seq<Choice>, c: int)
    ensures Says(s, HandleChoices(s, ctx, choices), MsgId(s.response, c), ContentOf(choices, c), ReasoningOf(choices))
    decreases |choices|
  {
    hide Says, HandleChoice;
    var id := MsgId(s.response, c);
    if choices == [] {
      SaysNothing(s, s, id);
    } else {
      var ch, s1 := choices[0], HandleChoice(s, ctx, choices[0]);
      HandleChoiceSays(s, ctx, ch, c);
      HandleChoicesSay(s1, ctx, choices[1..], c);
      SaysBoth(s, s1, HandleChoices(s, ctx, choices), id, if ch.index == c then ch.content else "",
               ContentOf(choices[1..], c), ch.reasoning, ReasoningOf(choices[1..]));
    }
  }

  lemma {:induction false} CompleteQuiet(s: State, ctx: Context, choices: seq<Choice>, id: ItemId)
    ensures Says(s, Complete(s, ctx, choices), id, "", "")
  {
    hide Spoken, Thoughts, Output;
    SaysNothing(s, s, id);
    EmitQuiet(s.(completed := true), Completed(s.response, Output(s, ctx)), id);
  }

  // ---------------------------------------------------------------- whole streams

  lemma {:induction false} ConvertSays(s: State, ctx: Context, chunk: Chunk, c: int)
    requires s.started
    ensures var choices := if Relevant(chunk) then chunk.choices.value else [];
            Says(s, Convert(s, ctx, chunk), MsgId(s.response, c), ContentOf(choices, c), ReasoningOf(choices))
    ensures Convert(s, ctx, chunk).started && Convert(s, ctx, chunk).response == s.response
  {
    hide Says, HandleChoices;
    var id := MsgId(s.response, c);
    if Relevant(chunk) {
      var choices, s1 := chunk.choices.value, HandleChoices(s, ctx, chunk.choices.value);
      HandleChoicesSay(s, ctx, choices, c);
      CompleteQuiet(s1, ctx, choices, id);
      SaysBoth(s, s1, Complete(s1, ctx, choices), id, ContentOf(choices, c), "", ReasoningOf(choices), "");
    } else {
      SaysNothing(s, s, id);
    }
  }

  lemma {:induction false} ContentJoins(a: seq<Choice>, b: seq<Choice>, c: int)
    ensures ContentOf(a + b, c) == ContentOf(a, c) + ContentOf(b, c)
    ensures ReasoningOf(a + b) == ReasoningOf(a) + ReasoningOf(b)
    decreases |a|
  {
    if a == [] {
      assert a + b == b;
    } else {
      assert (a + b)[1..] == a[1..] + b;
      ContentJoins(a[1..], b, c);
    }
  }

  lemma {:induction false} RunSays(s: State, ctx: Context, chunks: seq<Chunk>, c: int)
    requires s.started
    ensures Says(s, Run(s, ctx, chunks), MsgId(s.response, c), ContentOf(Said(chunks), c), ReasoningOf(Said(chunks)))
    decreases |chunks|
  {
    hide Says, Convert, ContentOf, ReasoningOf;
    var id := MsgId(s.response, c);
    if chunks == [] {
      assert ContentOf([], c) == "" && ReasoningOf([]) == "" by { NothingSent(c); }
      SaysNothing(s, s, id);
    } else {
      var s1 := Convert(s, ctx, chunks[0]);
      var now, later := if Relevant(chunks[0]) then chunks[0].choices.value else [], Said(chunks[1..]);
      ConvertSays(s, ctx, chunks[0], c);
      RunSays(s1, ctx, chunks[1..], c);
      ContentJoins(now, later, c);
      SaysBoth(s, s1, Run(s, ctx, chunks), id, ContentOf(now, c), ContentOf(later, c), ReasoningOf(now),
               ReasoningOf(later));
    }
  }

  lemma {:induction false} NothingSent(c: int)
    ensures ContentOf([], c) == "" && ReasoningOf([]) == ""
  {
  }

  lemma {:induction false} StartSays(ctx: Context, id: string, item: ItemId)
    ensures var s := Start(INITIAL_STATE, ctx, id);
            && Spoken(s.log, item) == "" && Thoughts(s.log) == "" && s.started
            && s.response == (if id == "" then ctx.freshId else id)
  {
    var resp := if id == "" then ctx.freshId else id;
    var s1 := State(0, true, resp, ctx.custom, 0, false, NO_REASONING, NO_MESSAGES, NO_TOOLS, []);
    EmitQuiet(s1, Created(resp), item);
    EmitQuiet(Emit(s1, Created(resp)), InProgress(resp), item);
  }

  /** In every stream, with any number of choices and in any order: the message of each choice gets the
      content of that choice, all of it and in order, and the reasoning items together get all
      reasoning. */
  lemma {:induction false} TextConserved(ctx: Context, chunks: seq<Chunk>, c: int)
    ensures var log := Stream(ctx, chunks).log;
            && Spoken(log, MsgId(ResponseId(ctx, chunks), c)) == ContentOf(Said(chunks), c)
            && Thoughts(log) == ReasoningOf(Said(chunks))
    decreases |chunks|
  {
    hide Spoken, Thoughts, HandleChoices, Complete, ContentOf, ReasoningOf;
    if chunks == [] {
      NothingSent(c);
      assert Spoken([], MsgId("", c)) == "" && Thoughts([]) == "" by { NothingSpoken(MsgId("", c)); }
    } else {
      var first := chunks[0];
      if !Relevant(first) {
        assert Convert(INITIAL_STATE, ctx, first) == INITIAL_STATE;
        TextConserved(ctx, chunks[1..], c);
        assert Said(chunks) == Said(chunks[1..]);
      } else {
        var s := Start(INITIAL_STATE, ctx, first.id);
        StartSays(ctx, first.id, MsgId(s.response, c));
        assert Start(s, ctx, first.id) == s;
        assert Convert(INITIAL_STATE, ctx, first) == Convert(s, ctx, first);
        RunSays(s, ctx, chunks, c);
        assert "" + ContentOf(Said(chunks), c) == ContentOf(Said(chunks), c);
        assert "" + ReasoningOf(Said(chunks)) == ReasoningOf(Said(chunks));
      }
    }
  }

  lemma {:induction false} NothingSpoken(id: ItemId)
    ensures Spoken([], id) == "" && Thoughts([]) == ""
  {
  }
}

/** The items that end in a Responses stream against the output that `response.completed` lists. */
module CodexItemsDone {
  import opened Options
  import opened ResponsesEvents
  import opened SortedKeys
  import opened OpenAIToCodex
  import opened CodexStreamSafety
  import opened CodexLateChoices
  import opened CodexStreams

  // ---------------------------------------------------------------- what the events say

  function Sort(item: Item): Kind {
    KindOf(Live(item, "", Closed))
  }

  /** The items of one kind in `response.output_item.done` events, in order. */
  function Done(log: seq<Event>, kind: Kind): seq<Item> {
    if log == [] then []
    else
      var before, body := Done(log[..|log| - 1], kind), log[|log| - 1].body;
      if body.ItemDone? && Sort(body.item) == kind then before + [body.item] else before
  }

  /** All of them: reasoning, message, calls. */
  function AllDone(log: seq<Event>): seq<Item> {
    Done(log, Thought) + Done(log, Message) + Done(log, Tool)
  }

  /** The output lists an item as it was when it ended, but for arguments that stayed empty: they end
      as an empty JSON object. */
  ghost predicate AsDone(ctx: Context, done: Item, listed: Item) {
    done == listed
    || exists call, name :: listed == ToolItem(ctx, ctx.custom, call, name, "")
                            && done == ToolItem(ctx, ctx.custom, call, name, "{}")
  }

  ghost predicate AllAsDone(ctx: Context, done: seq<Item>, listed: seq<Item>) {
    |done| == |listed| && forall k :: 0 <= k < |done| ==> AsDone(ctx, done[k], listed[k])
  }

  /** The last event lists all items that ended. */
  ghost predicate ListsAll(ctx: Context, log: seq<Event>) {
    |log| > 0 && log[|log| - 1].body.Completed? && AllAsDone(ctx, AllDone(log), log[|log| - 1].body.output)
  }

  // ---------------------------------------------------------------- single steps

  lemma {:induction false} EmitDone(s: State, body: Body, kind: Kind)
    ensures Done(Emit(s, body).log, kind)
         == Done(s.log, kind) + if body.ItemDone? && Sort(body.item) == kind then [body.item] else []
  {
    assert Emit(s, body).log[..|s.log|] == s.log;
    assert Done(s.log, kind) + [] == Done(s.log, kind);
  }

  lemma {:induction false} EmitClosingDone(s: State, channel: Channel, id: ItemId, index: nat, text: string, item: Item,
                                           kind: Kind)
    ensures Done(EmitClosing(s, channel, id, index, text, item).log, kind)
         == Done(s.log, kind) + if Sort(item) == kind then [item] else []
  {
    hide Done;
    var s1 := Emit(s, TextDone(channel, id, index, text));
    EmitDone(s, TextDone(channel, id, index, text), kind);
    EmitDone(s1, PartDone(channel, id, index, text), kind);
    EmitDone(Emit(s1, PartDone(channel, id, index, text)), ItemDone(index, item), kind);
  }

  /** What has ended so far, before the finish: the reasoning that is kept for the output, and the
      message as it is. */
  predicate Noted(s: State, c: int) {
    && Done(s.log, Thought) == s.reasoning.done
    && Done(s.log, Message)
       == (if c in s.messages.done then [MessageItem(MsgId(s.response, c), Get(s.messages.text, c))] else [])
  }

  predicate SameDone(s: State, r: State) {
    forall kind :: Done(r.log, kind) == Done(s.log, kind)
  }

  lemma {:induction false} StopReasoningDone(s: State, c: int)
    requires Noted(s, c)
    ensures Noted(StopReasoning(s), c) && Done(StopReasoning(s).log, Tool) == Done(s.log, Tool)
  {
    hide Done, EmitClosing;
    if s.reasoning.id.Some? {
      var now := s.reasoning;
      var id, item := now.id.value, ReasoningItem(now.id.value, now.buf);
      EmitClosingDone(s, SummaryText, id, now.index, now.buf, item, Thought);
      EmitClosingDone(s, SummaryText, id, now.index, now.buf, item, Message);
      EmitClosingDone(s, SummaryText, id, now.index, now.buf, item, Tool);
    }
  }

  lemma {:induction false} CloseMessageDone(s: State, c: int)
    requires Noted(s, c)
    ensures Noted(CloseMessage(s, c), c) && Done(CloseMessage(s, c).log, Tool) == Done(s.log, Tool)
  {
    hide Done;
    if c in s.messages.added && c !in s.messages.done {
      var t, id, text := AssignMsgIndex(s, c), MsgId(s.response, c), Get(s.messages.text, c);
      EmitClosingDone(t, OutputText, id, MsgOutIdx(s, c), text, MessageItem(id, text), Thought);
      EmitClosingDone(t, OutputText, id, MsgOutIdx(s, c), text, MessageItem(id, text), Message);
      EmitClosingDone(t, OutputText, id, MsgOutIdx(s, c), text, MessageItem(id, text), Tool);
    }
  }

  lemma {:induction false} AnnounceMessageDone(s: State, c: int, kind: Kind)
    ensures Done(AnnounceMessage(s, c).log, kind) == Done(s.log, kind)
    ensures AnnounceMessage(s, c).messages.done == s.messages.done
  {
    hide Done;
    EmitDone(AssignMsgIndex(s, c), ItemAdded(MsgOutIdx(s, c), MessageItem(MsgId(s.response, c), "")), kind);
  }

  lemma {:induction false} AddMessagePartDone(s: State, c: int, kind: Kind)
    ensures Done(AddMessagePart(s, c).log, kind) == Done(s.log, kind)
    ensures AddMessagePart(s, c).messages.done == s.messages.done
  {
    hide Done;
    EmitDone(AssignMsgIndex(s, c), PartAdded(OutputText, MsgId(s.response, c), MsgOutIdx(s, c)), kind);
  }

  lemma {:induction false} SayDone(s: State, c: int, text: string, kind: Kind)
    ensures Done(Say(s, c, text).log, kind) == Done(s.log, kind)
    ensures Say(s, c, text).messages.done == s.messages.done
  {
    hide Done;
    EmitDone(AssignMsgIndex(s, c), Delta(OutputText, MsgId(s.response, c), MsgOutIdx(s, c), text), kind);
  }

  lemma {:induction false} HandleContentDone(s: State, c: int, text: string)
    requires Noted(s, c) && (text != "" ==> c !in s.messages.done)
    ensures Noted(HandleContent(s, c, text), c) && Done(HandleContent(s, c, text).log, Tool) == Done(s.log, Tool)
  {
    hide Done, StopReasoning, AnnounceMessage, AddMessagePart, Say;
    if text != "" {
      StopReasoningDone(s, c);
      var s1 := StopReasoning(s);
      var s2 := AnnounceMessage(s1, c);
      forall kind
        ensures Done(HandleContent(s, c, text).log, kind) == Done(s1.log, kind)
        ensures HandleContent(s, c, text).messages.done == s.messages.done
      {
        AnnounceMessageDone(s1, c, kind);
        AddMessagePartDone(s2, c, kind);
        SayDone(AddMessagePart(s2, c), c, text, kind);
      }
      assert Done(HandleContent(s, c, text).log, Thought) == Done(s1.log, Thought);
    }
  }

  lemma {:induction false} HandleReasoningDone(s: State, c: int, text: string)
    requires Noted(s, c)
    ensures Noted(HandleReasoning(s, c, text), c) && Done(HandleReasoning(s, c, text).log, Tool) == Done(s.log, Tool)
  {
    hide Done;
    if text != "" {
      var id, n := RsId(s.response, c), s.nextIndex;
      var s1, s2 := Emit(s, ItemAdded(n, ReasoningItem(id, ""))), OpenReasoning(s, c);
      forall kind ensures Done(Think(s2, text).log, kind) == Done(s.log, kind) {
        EmitDone(s, ItemAdded(n, ReasoningItem(id, "")), kind);
        EmitDone(s1, PartAdded(SummaryText, id, n), kind);
        EmitDone(s2, Delta(SummaryText, s2.reasoning.id.value, s2.reasoning.index, text), kind);
      }
    }
  }

  lemma {:induction false} AnnounceToolDone(s: State, i: int, kind: Kind)
    ensures Done(AnnounceTool(s, i).log, kind) == Done(s.log, kind)
  {
    hide Done;
    var t := AssignFuncIndex(s.(tools := s.tools.(added := s.tools.added + {i})), i);
    EmitDone(t, ItemAdded(FuncOutIdx(s, i), AnnouncedItem(s, i)), kind);
  }

  lemma {:induction false} FlushArgumentsDone(s: State, i: int, kind: Kind)
    ensures Done(FlushArguments(s, i).log, kind) == Done(s.log, kind)
  {
    hide Done;
    var call, full, sent := Get(s.tools.callIds, i), Get(s.tools.args, i), IndexOf(s.tools.sent, i);
    if |full| > sent {
      EmitDone(AssignFuncIndex(s, i), Delta(Arguments, FcId(call), FuncOutIdx(s, i), full[sent..]), kind);
    }
  }

  lemma {:induction false} HandleToolDone(s: State, i: int, d: ToolDelta)
    ensures SameDone(s, HandleTool(s, i, d))
  {
    hide Done, NoteTool, AnnounceTool, BufferArguments, FlushArguments;
    var s0 := s.(tools := NoteTool(s.tools, i, d));
    var s1 := AnnounceTool(s0, i);
    forall kind ensures Done(HandleTool(s, i, d).log, kind) == Done(s.log, kind) {
      AnnounceToolDone(s0, i, kind);
      FlushArgumentsDone(s1.(tools := BufferArguments(s1.tools, i, d.arguments)), i, kind);
    }
  }

  lemma {:induction false} HandleToolsFromDone(s: State, ds: seq<ToolDelta>, k: nat)
    requires k <= |ds|
    ensures var r := HandleToolsFrom(s, ds, k);
            SameDone(s, r) && r.reasoning == s.reasoning && r.messages == s.messages
    decreases |ds| - k
  {
    hide HandleTool, Done;
    if k < |ds| {
      HandleToolDone(s, CallIndex(ds[k], k), ds[k]);
      HandleToolsFromDone(HandleTool(s, CallIndex(ds[k], k), ds[k]), ds, k + 1);
    }
  }

  lemma {:induction false} HandleToolsDone(s: State, c: int, tools: Option<seq<ToolDelta>>)
    requires Noted(s, c)
    ensures Noted(HandleTools(s, c, tools), c) && Done(HandleTools(s, c, tools).log, Tool) == Done(s.log, Tool)
  {
    hide StopReasoning, CloseMessage, HandleToolsFrom, Done;
    if tools.Some? {
      StopReasoningDone(s, c);
      CloseMessageDone(StopReasoning(s), c);
      HandleToolsFromDone(CloseMessage(StopReasoning(s), c), tools.value, 0);
    }
  }

  // ---------------------------------------------------------------- the finish

  /** The items with which the calls end. */
  function FinalTools(t: Tools, custom: set<string>, ctx: Context, keys: seq<int>): seq<Item> {
    if keys == [] then []
    else
      var i := keys[0];
      [ToolItem(ctx, custom, Get(t.callIds, i), Get(t.names, i), FinalArguments(Get(t.args, i)))]
      + FinalTools(t, custom, ctx, keys[1..])
  }

  lemma {:induction false} FinalToolsAsDone(s: State, ctx: Context, keys: seq<int>)
    requires s.custom == ctx.custom
    ensures AllAsDone(ctx, FinalTools(s.tools, s.custom, ctx, keys), OutputTools(s, ctx, keys))
  {
    if keys != [] {
      hide ToolItem;
      FinalToolsAsDone(s, ctx, keys[1..]);
    }
  }

  lemma {:induction false} SameTables(t: Tools, t': Tools, custom: set<string>, ctx: Context, keys: seq<int>)
    requires t'.callIds == t.callIds && t'.names == t.names && t'.args == t.args
    ensures FinalTools(t', custom, ctx, keys) == FinalTools(t, custom, ctx, keys)
  {
    if keys != [] {
      SameTables(t, t', custom, ctx, keys[1..]);
    }
  }

  lemma {:induction false} EmitFinalDone(s: State, ctx: Context, i: int, index: nat, kind: Kind)
    ensures Done(EmitFinal(s, ctx, i, index).log, kind)
         == Done(s.log, kind) + if kind.Tool? then FinalTools(s.tools, s.custom, ctx, [i]) else []
  {
    hide Done;
    var call, name, args := Get(s.tools.callIds, i), Get(s.tools.names, i), FinalArguments(Get(s.tools.args, i));
    assert [i][1..] == [];
    assert FinalTools(s.tools, s.custom, ctx, [i]) == [ToolItem(ctx, s.custom, call, name, args)];
    if IsCustom(s, i) {
      EmitDone(s, ItemDone(index, CustomItem(CtcId(call), call, name, ctx.unwrap(args))), kind);
    } else {
      EmitDone(s, TextDone(Arguments, FcId(call), index, args), kind);
      EmitDone(Emit(s, TextDone(Arguments, FcId(call), index, args)),
               ItemDone(index, FunctionItem(FcId(call), call, name, args)), kind);
    }
  }

  predicate SameWords(s: State, r: State) {
    && r.reasoning == s.reasoning && r.messages == s.messages
    && r.tools.callIds == s.tools.callIds && r.tools.names == s.tools.names && r.tools.args == s.tools.args
  }

  lemma {:induction false} EmitFinalWords(s: State, ctx: Context, i: int, index: nat)
    ensures SameWords(s, EmitFinal(s, ctx, i, index)) && EmitFinal(s, ctx, i, index).tools.done == s.tools.done
  {
  }

  lemma {:induction false} FinishToolDone(s: State, ctx: Context, i: int)
    requires Get(s.tools.callIds, i) != "" && i !in s.tools.done
    ensures var r := FinishTool(s, ctx, i);
            && Done(r.log, Thought) == Done(s.log, Thought) && Done(r.log, Message) == Done(s.log, Message)
            && Done(r.log, Tool) == Done(s.log, Tool) + FinalTools(s.tools, s.custom, ctx, [i])
            && SameWords(s, r) && r.tools.done == s.tools.done + {i}
  {
    hide Done, EmitFinal, FinalTools;
    var t, index := AssignFuncIndex(s, i), FuncOutIdx(s, i);
    EmitFinalWords(t, ctx, i, index);
    SameTables(s.tools, t.tools, s.custom, ctx, [i]);
    EmitFinalDone(t, ctx, i, index, Thought);
    EmitFinalDone(t, ctx, i, index, Message);
    EmitFinalDone(t, ctx, i, index, Tool);
    assert Done(s.log, Thought) + [] == Done(s.log, Thought) && Done(s.log, Message) + [] == Done(s.log, Message);
  }

  lemma {:induction false} FinishToolsDone(s: State, ctx: Context, keys: seq<int>)
    requires forall k :: 0 <= k < |keys| ==> Get(s.tools.callIds, keys[k]) != "" && keys[k] !in s.tools.done
    requires forall j, k :: 0 <= j < k < |keys| ==> keys[j] != keys[k]
    ensures var r := FinishTools(s, ctx, keys);
            && Done(r.log, Thought) == Done(s.log, Thought) && Done(r.log, Message) == Done(s.log, Message)
            && Done(r.log, Tool) == Done(s.log, Tool) + FinalTools(s.tools, s.custom, ctx, keys)
            && SameWords(s, r)
    decreases |keys|
  {
    hide Done, FinishTool, ToolItem;
    if keys == [] {
      assert Done(s.log, Tool) + [] == Done(s.log, Tool);
    } else {
      FinishToolDone(s, ctx, keys[0]);
      var s1 := FinishTool(s, ctx, keys[0]);
      FinishToolsDone(s1, ctx, keys[1..]);
      SameTables(s.tools, s1.tools, s.custom, ctx, keys[1..]);
      assert [keys[0]][1..] == [];
      assert FinalTools(s.tools, s.custom, ctx, keys)
          == FinalTools(s.tools, s.custom, ctx, [keys[0]]) + FinalTools(s.tools, s.custom, ctx, keys[1..]);
    }
  }

  lemma {:induction false} AsDoneConcat(ctx: Context, same: seq<Item>, done: seq<Item>, listed: seq<Item>)
    requires AllAsDone(ctx, done, listed)
    ensures AllAsDone(ctx, same + done, same + listed)
  {
    forall k | 0 <= k < |same + done| ensures AsDone(ctx, (same + done)[k], (same + listed)[k]) {
      if k >= |same| {
        assert AsDone(ctx, done[k - |same|], listed[k - |same|]);
      }
    }
  }

  /** Once the stream is finished the message is listed as it ended. */
  lemma {:induction false} MessageListed(s: State, c: int, h: Heard)
    requires Sound(s, c, h) && h.finished && Noted(s, c)
    ensures Done(s.log, Message) == OutputMessages(s, Sorted(s.messages.added))
  {
    hide Done, Read, Reads, ReasoningTracks, ToolsPlaced, AllFlushed, SameCalls;
    if h.text != "" {
      SortedOne(s.messages.added, c);
      OutputOne(s, c);
    } else {
      assert Sorted({}) == [];
    }
  }

  lemma {:induction false} CallsToFinish(s: State, c: int, h: Heard, keys: seq<int>)
    requires Sound(s, c, h) && s.tools.done == {} && keys == Sorted(s.tools.callIds.Keys)
    ensures forall k :: 0 <= k < |keys| ==> Get(s.tools.callIds, keys[k]) != "" && keys[k] !in s.tools.done
  {
    hide Read, Reads, ReasoningTracks, MessageTracks, ToolsPlaced, AllFlushed, Sorted;
    forall k | 0 <= k < |keys| ensures Get(s.tools.callIds, keys[k]) != "" {
      assert keys[k] in keys;
      assert SameCall(s.tools, h.calls, h.announced, keys[k]);
    }
  }

  lemma {:induction false} NothingDone(s: State, c: int, h: Heard)
    requires Sound(s, c, h) && !h.finished
    ensures s.tools.done == {} && s.messages.added == if h.text == "" then {} else {c}
    ensures !h.sealed ==> c !in s.messages.done
  {
    hide Read, Reads, ReasoningTracks, ToolsPlaced, AllFlushed, SameCalls;
  }

  lemma {:induction false} BeforeToolsDone(s: State, c: int, h: Heard)
    requires Sound(s, c, h) && !h.finished && Noted(s, c)
    ensures Noted(BeforeTools(s), c) && Done(BeforeTools(s).log, Tool) == Done(s.log, Tool)
  {
    hide Done, Sound, Noted, CloseMessage, StopReasoning;
    NothingDone(s, c, h);
    if h.text != "" {
      SortedOne(s.messages.added, c);
      CloseOne(s, c);
      CloseMessageDone(s, c);
    } else {
      assert Sorted({}) == [] && CloseMessages(s, []) == s;
    }
    StopReasoningDone(CloseMessages(s, Sorted(s.messages.added)), c);
  }

  /** After the finish of a sound stream all items that ended are those of the output. */
  lemma {:induction false} FinishDone(s: State, ctx: Context, c: int, h: Heard)
    requires Sound(s, c, h) && !h.finished && Noted(s, c) && Done(s.log, Tool) == [] && s.custom == ctx.custom
    ensures AllAsDone(ctx, AllDone(Finish(s, ctx).log), Output(Finish(s, ctx), ctx))
  {
    hide Done, Sound, BeforeTools, FinishTools, OutputMessages, OutputTools, FinalTools, AllAsDone, Sorted;
    var s2, h2 := BeforeTools(s), Settle(h).(finished := true);
    var keys, r := Sorted(s2.tools.callIds.Keys), Finish(s, ctx);
    assert r == FinishTools(s2, ctx, keys) by { FinishFrom(s, ctx); }
    BeforeToolsSound(s, c, h);
    BeforeToolsDone(s, c, h);
    NothingDone(s, c, h);
    CallsToFinish(s2, c, h2, keys);
    FinishToolsDone(s2, ctx, keys);
    MessageListed(s2, c, h2);
    SameMessages(s2, r, Sorted(s2.messages.added));
    SameTables(s2.tools, r.tools, s2.custom, ctx, keys);
    FinalToolsAsDone(r, ctx, keys);
    var same := Done(r.log, Thought) + Done(r.log, Message);
    assert [] + FinalTools(s2.tools, s2.custom, ctx, keys) == FinalTools(s2.tools, s2.custom, ctx, keys);
    AsDoneConcat(ctx, same, FinalTools(r.tools, r.custom, ctx, keys), OutputTools(r, ctx, keys));
  }

  lemma {:induction false} FinishFrom(s: State, ctx: Context)
    ensures Finish(s, ctx) == FinishTools(BeforeTools(s), ctx, Sorted(BeforeTools(s).tools.callIds.Keys))
  {
  }

  lemma {:induction false} SameMessages(s: State, r: State, keys: seq<int>)
    requires r.messages == s.messages && r.response == s.response
    ensures OutputMessages(r, keys) == OutputMessages(s, keys)
  {
    if keys != [] {
      SameMessages(s, r, keys[1..]);
    }
  }

  // ---------------------------------------------------------------- whole streams

  /** One fair choice; with a finish reason it completes the stream. */
  lemma {:induction false} ChoiceDone(s: State, ctx: Context, c: int, h: Heard, ch: Choice)
    requires Sound(s, c, h) && !h.finished && Noted(s, c) && Done(s.log, Tool) == [] && s.custom == ctx.custom
    requires ch.index == c && FairChoice(h, s.custom, ch)
    ensures var s' := Complete(HandleChoice(s, ctx, ch), ctx, [ch]);
            if ch.finishReason == "" then Noted(s', c) && Done(s'.log, Tool) == []
            else !s.completed ==> ListsAll(ctx, s'.log)
  {
    hide Done, Noted, Sound, HandleContent, HandleReasoning, HandleTools, Finish, Output, AllDone, AllAsDone;
    hide FairToolsFrom, FairFinish, HearTools;
    HandleContentSound(s, c, h, ch.content);
    NothingDone(s, c, h);
    HandleContentDone(s, c, ch.content);
    var s1, h1 := HandleContent(s, c, ch.content), HearContent(h, ch.content);
    HandleReasoningSound(s1, c, h1, ch.reasoning);
    HandleReasoningDone(s1, c, ch.reasoning);
    var s2, h2 := HandleReasoning(s1, c, ch.reasoning), HearReasoning(h1, ch.reasoning);
    HandleToolsSound(s2, c, h2, ch.tools);
    HandleToolsDone(s2, c, ch.tools);
    var s3, h3 := HandleTools(s2, c, ch.tools), HearTools(h2, ch.tools);
    if ch.finishReason != "" {
      FinishDone(s3, ctx, c, h3);
      if !s.completed {
        CompleteLists(Finish(s3, ctx), ctx, ch);
      }
    } else {
      NoFinish(s3, ctx, ch);
    }
  }

  lemma {:induction false} CompleteLists(s: State, ctx: Context, ch: Choice)
    requires ch.finishReason != "" && !s.completed && AllAsDone(ctx, AllDone(s.log), Output(s, ctx))
    ensures ListsAll(ctx, Complete(s, ctx, [ch]).log)
  {
    hide Done, Output, AllAsDone;
    assert [ch][0].finishReason != "";
    forall kind ensures Done(Complete(s, ctx, [ch]).log, kind) == Done(s.log, kind) {
      EmitDone(s.(completed := true), Completed(s.response, Output(s, ctx)), kind);
    }
  }

  lemma {:induction false} RunDone(s: State, ctx: Context, c: int, h: Heard, chunks: seq<Chunk>)
    requires Sound(s, c, h) && s.started && !s.completed && s.custom == ctx.custom && !h.finished
    requires AllSingle(chunks, c) && Noted(s, c) && Done(s.log, Tool) == [] && EndsWell(h, ctx.custom, Said(chunks))
    ensures ListsAll(ctx, Run(s, ctx, chunks).log)
    decreases |chunks|
  {
    hide Sound, Noted, Done, ListsAll, Convert, Complete, HandleChoice, FairChoice, Hear, Mute;
    SaidFirst(chunks, c);
    ConvertOne(s, ctx, chunks[0], c);
    if !Relevant(chunks[0]) || chunks[0].choices.value == [] {
      RunDone(s, ctx, c, h, chunks[1..]);
    } else {
      var ch := chunks[0].choices.value[0];
      var s1, h1 := HandleChoice(s, ctx, ch), Hear(h, ch);
      HandleChoiceSound(s, ctx, c, h, ch);
      ChoiceDone(s, ctx, c, h, ch);
      if ch.finishReason != "" {
        FinishFair(h, ctx.custom, ch);
        CompleteEnds(s1, ctx, c, h1, ch);
        EndLate(s1, ctx, c, h1, ch);
        SameSettings(s1, ctx, ch);
        LateRun(Complete(s1, ctx, [ch]), ctx, c, h1, h1, chunks[1..]);
      } else {
        NoFinish(s1, ctx, ch);
        RunDone(s1, ctx, c, h1, chunks[1..]);
      }
    }
  }

  /** A well-formed single-choice stream: the output of its last event lists exactly the items that
      have ended in it, first the reasoning, then the message, then the calls, each kind in the order
      in which it ended, and each as it ended but for empty arguments. */
  lemma {:induction false} OutputListsAll(ctx: Context, chunks: seq<Chunk>, c: int)
    requires AllSingle(chunks, c) && WellFormed(Stream(ctx, chunks).log)
    ensures ListsAll(ctx, Stream(ctx, chunks).log)
    decreases |chunks|
  {
    hide Sound, HandleChoices, Complete, FairChoice, Hear, Mute, ListsAll, WellFormed, Noted, Done, Expected, Ended;
    hide HearUntil;
    StreamExact(ctx, chunks, c);
    assert Said(chunks) != [];
    var first := chunks[0];
    SaidFirst(chunks, c);
    if !Relevant(first) {
      assert Convert(INITIAL_STATE, ctx, first) == INITIAL_STATE;
      OutputListsAll(ctx, chunks[1..], c);
    } else {
      var s := Start(INITIAL_STATE, ctx, first.id);
      StartSound(ctx, first.id, c);
      StartDone(ctx, first.id, c);
      assert Start(s, ctx, first.id) == s;
      assert Convert(INITIAL_STATE, ctx, first) == Convert(s, ctx, first);
      RunDone(s, ctx, c, SILENCE, chunks);
    }
  }

  lemma {:induction false} StartDone(ctx: Context, id: string, c: int)
    ensures var s := Start(INITIAL_STATE, ctx, id); Noted(s, c) && Done(s.log, Tool) == [] && !s.completed
  {
    var resp := if id == "" then ctx.freshId else id;
    var s1 := State(0, true, resp, ctx.custom, 0, false, NO_REASONING, NO_MESSAGES, NO_TOOLS, []);
    forall kind ensures Done(Start(INITIAL_STATE, ctx, id).log, kind) == [] {
      EmitDone(s1, Created(resp), kind);
      EmitDone(Emit(s1, Created(resp)), InProgress(resp), kind);
    }
  }
}

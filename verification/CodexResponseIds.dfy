/** Which response and which items the events of the Responses converter speak of: streams of any
    number of choices, fair or not. */
module CodexResponseIds {
  import opened Options
  import opened ResponsesEvents
  import opened SortedKeys
  import opened OpenAIToCodex
  import opened CodexStreams

  // ---------------------------------------------------------------- names in events

  /** Reasoning and messages are named after the response. */
  predicate IdOf(id: ItemId, response: string) {
    match id
    case RsId(r, _) => r == response
    case MsgId(r, _) => r == response
    case _ => true
  }

  /** And calls after the call. */
  predicate ItemOf(item: Item, response: string) {
    && IdOf(item.id, response)
    && match item
       case ReasoningItem(id, _) => id.RsId?
       case MessageItem(id, _) => id.MsgId?
       case FunctionItem(id, call, _, _) => id == FcId(call)
       case CustomItem(id, call, _, _) => id == CtcId(call)
  }

  predicate AllOf(items: seq<Item>, response: string) {
    forall k :: 0 <= k < |items| ==> ItemOf(items[k], response)
  }

  predicate BodyOf(body: Body, response: string) {
    match body
    case Created(r) => r == response
    case InProgress(r) => r == response
    case ItemAdded(_, item) => ItemOf(item, response)
    case PartAdded(_, id, _) => IdOf(id, response)
    case Delta(_, id, _, _) => IdOf(id, response)
    case TextDone(_, id, _, _) => IdOf(id, response)
    case PartDone(_, id, _, _) => IdOf(id, response)
    case ItemDone(_, item) => ItemOf(item, response)
    case Completed(r, output) => r == response && AllOf(output, response)
  }

  predicate LogOf(log: seq<Event>, response: string) {
    forall k :: 0 <= k < |log| ==> BodyOf(log[k].body, response)
  }

  // ---------------------------------------------------------------- each step keeps it

  predicate Consistent(s: State) {
    && LogOf(s.log, s.response)
    && (s.reasoning.id.Some? ==> s.reasoning.id.value.RsId? && IdOf(s.reasoning.id.value, s.response))
    && AllOf(s.reasoning.done, s.response)
  }

  lemma {:induction false} EmitOf(s: State, body: Body, response: string)
    requires LogOf(s.log, response) && BodyOf(body, response)
    ensures LogOf(Emit(s, body).log, response)
  {
  }

  lemma {:induction false} StopReasoningConsistent(s: State)
    requires Consistent(s)
    ensures Consistent(StopReasoning(s))
  {
  }

  lemma {:induction false} AnnounceMessageOf(s: State, c: int)
    requires LogOf(s.log, s.response)
    ensures LogOf(AnnounceMessage(s, c).log, s.response)
  {
    hide LogOf;
    EmitOf(AssignMsgIndex(s, c), ItemAdded(MsgOutIdx(s, c), MessageItem(MsgId(s.response, c), "")), s.response);
  }

  lemma {:induction false} AddMessagePartOf(s: State, c: int)
    requires LogOf(s.log, s.response)
    ensures LogOf(AddMessagePart(s, c).log, s.response)
  {
    hide LogOf;
    EmitOf(AssignMsgIndex(s, c), PartAdded(OutputText, MsgId(s.response, c), MsgOutIdx(s, c)), s.response);
  }

  lemma {:induction false} SayOf(s: State, c: int, text: string)
    requires LogOf(s.log, s.response)
    ensures LogOf(Say(s, c, text).log, s.response)
  {
    hide LogOf;
    EmitOf(AssignMsgIndex(s, c), Delta(OutputText, MsgId(s.response, c), MsgOutIdx(s, c), text), s.response);
  }

  lemma {:induction false} HandleContentConsistent(s: State, c: int, text: string)
    requires Consistent(s)
    ensures Consistent(HandleContent(s, c, text))
  {
    hide LogOf, StopReasoning, AnnounceMessage, AddMessagePart, Say, AllOf;
    StopReasoningConsistent(s);
    var s1 := StopReasoning(s);
    AnnounceMessageOf(s1, c);
    AddMessagePartOf(AnnounceMessage(s1, c), c);
    SayOf(AddMessagePart(AnnounceMessage(s1, c), c), c, text);
  }

  lemma {:induction false} HandleReasoningConsistent(s: State, c: int, text: string)
    requires Consistent(s)
    ensures Consistent(HandleReasoning(s, c, text))
  {
  }

  lemma {:induction false} CloseMessageConsistent(s: State, c: int)
    requires Consistent(s)
    ensures Consistent(CloseMessage(s, c))
  {
  }

  lemma {:induction false} AnnounceToolOf(s: State, i: int)
    requires LogOf(s.log, s.response)
    ensures LogOf(AnnounceTool(s, i).log, s.response)
  {
    hide LogOf;
    var t := AssignFuncIndex(s.(tools := s.tools.(added := s.tools.added + {i})), i);
    EmitOf(t, ItemAdded(FuncOutIdx(s, i), AnnouncedItem(s, i)), s.response);
  }

  lemma {:induction false} FlushArgumentsOf(s: State, i: int)
    requires LogOf(s.log, s.response)
    ensures LogOf(FlushArguments(s, i).log, s.response)
  {
    hide LogOf;
    var call, full, sent := Get(s.tools.callIds, i), Get(s.tools.args, i), IndexOf(s.tools.sent, i);
    if |full| > sent {
      EmitOf(AssignFuncIndex(s, i), Delta(Arguments, FcId(call), FuncOutIdx(s, i), full[sent..]), s.response);
    }
  }

  lemma {:induction false} HandleToolConsistent(s: State, i: int, d: ToolDelta)
    requires Consistent(s)
    ensures Consistent(HandleTool(s, i, d))
  {
    hide LogOf, AllOf, NoteTool, AnnounceTool, BufferArguments, FlushArguments;
    var s0 := s.(tools := NoteTool(s.tools, i, d));
    AnnounceToolOf(s0, i);
    var s1 := AnnounceTool(s0, i);
    FlushArgumentsOf(s1.(tools := BufferArguments(s1.tools, i, d.arguments)), i);
  }

  lemma {:induction false} HandleToolsFromConsistent(s: State, ds: seq<ToolDelta>, k: nat)
    requires Consistent(s) && k <= |ds|
    ensures Consistent(HandleToolsFrom(s, ds, k))
    decreases |ds| - k
  {
    hide Consistent, HandleTool;
    if k < |ds| {
      HandleToolConsistent(s, CallIndex(ds[k], k), ds[k]);
      HandleToolsFromConsistent(HandleTool(s, CallIndex(ds[k], k), ds[k]), ds, k + 1);
    }
  }

  lemma {:induction false} FinishToolConsistent(s: State, ctx: Context, i: int)
    requires Consistent(s)
    ensures Consistent(FinishTool(s, ctx, i))
  {
    hide LogOf, AllOf;
    var t, index := AssignFuncIndex(s, i), FuncOutIdx(s, i);
    var call, name, args := Get(s.tools.callIds, i), Get(s.tools.names, i), FinalArguments(Get(s.tools.args, i));
    var final := TextDone(Arguments, FcId(call), index, args);
    EmitOf(t, ItemDone(index, CustomItem(CtcId(call), call, name, ctx.unwrap(args))), s.response);
    EmitOf(t, final, s.response);
    EmitOf(Emit(t, final), ItemDone(index, FunctionItem(FcId(call), call, name, args)), s.response);
  }

  lemma {:induction false} CloseMessagesConsistent(s: State, keys: seq<int>)
    requires Consistent(s)
    ensures Consistent(CloseMessages(s, keys))
    decreases |keys|
  {
    hide Consistent, CloseMessage;
    if keys != [] {
      CloseMessageConsistent(s, keys[0]);
      CloseMessagesConsistent(CloseMessage(s, keys[0]), keys[1..]);
    }
  }

  lemma {:induction false} FinishToolsConsistent(s: State, ctx: Context, keys: seq<int>)
    requires Consistent(s)
    ensures Consistent(FinishTools(s, ctx, keys))
    decreases |keys|
  {
    hide Consistent, FinishTool;
    if keys != [] {
      FinishToolConsistent(s, ctx, keys[0]);
      FinishToolsConsistent(FinishTool(s, ctx, keys[0]), ctx, keys[1..]);
    }
  }

  lemma {:induction false} HandleChoiceConsistent(s: State, ctx: Context, ch: Choice)
    requires Consistent(s)
    ensures Consistent(HandleChoice(s, ctx, ch))
  {
    hide Consistent, HandleContent, HandleReasoning, HandleToolsFrom, CloseMessage, StopReasoning, CloseMessages;
    hide FinishTools;
    HandleContentConsistent(s, ch.index, ch.content);
    var s1 := HandleContent(s, ch.index, ch.content);
    HandleReasoningConsistent(s1, ch.index, ch.reasoning);
    var s2 := HandleReasoning(s1, ch.index, ch.reasoning);
    if ch.tools.Some? {
      StopReasoningConsistent(s2);
      CloseMessageConsistent(StopReasoning(s2), ch.index);
      HandleToolsFromConsistent(CloseMessage(StopReasoning(s2), ch.index), ch.tools.value, 0);
    }
    var s3 := HandleTools(s2, ch.index, ch.tools);
    if ch.finishReason != "" {
      var s4 := CloseMessages(s3, Sorted(s3.messages.added));
      CloseMessagesConsistent(s3, Sorted(s3.messages.added));
      StopReasoningConsistent(s4);
      FinishToolsConsistent(StopReasoning(s4), ctx, Sorted(StopReasoning(s4).tools.callIds.Keys));
    }
  }

  lemma {:induction false} HandleChoicesConsistent(s: State, ctx: Context, choices: seq<Choice>)
    requires Consistent(s)
    ensures Consistent(HandleChoices(s, ctx, choices))
    decreases |choices|
  {
    hide Consistent, HandleChoice;
    if choices != [] {
      HandleChoiceConsistent(s, ctx, choices[0]);
      HandleChoicesConsistent(HandleChoice(s, ctx, choices[0]), ctx, choices[1..]);
    }
  }

  lemma {:induction false} OutputMessagesOf(s: State, keys: seq<int>)
    ensures AllOf(OutputMessages(s, keys), s.response)
  {
    if keys != [] {
      OutputMessagesOf(s, keys[1..]);
    }
  }

  lemma {:induction false} OutputToolsOf(s: State, ctx: Context, keys: seq<int>)
    ensures AllOf(OutputTools(s, ctx, keys), s.response)
  {
    if keys != [] {
      OutputToolsOf(s, ctx, keys[1..]);
    }
  }

  lemma {:induction false} CompleteConsistent(s: State, ctx: Context, choices: seq<Choice>)
    requires Consistent(s)
    ensures Consistent(Complete(s, ctx, choices))
  {
    hide OutputMessages, OutputTools, Sorted, ItemOf;
    OutputMessagesOf(s, Sorted(s.messages.added));
    OutputToolsOf(s, ctx, Sorted(s.tools.callIds.Keys));
  }

  // ---------------------------------------------------------------- whole streams

  lemma {:induction false} ConvertConsistent(s: State, ctx: Context, chunk: Chunk)
    requires Consistent(s) && s.started
    ensures Consistent(Convert(s, ctx, chunk)) && Convert(s, ctx, chunk).started
    ensures Convert(s, ctx, chunk).response == s.response
  {
    hide Consistent, HandleChoices;
    if Relevant(chunk) {
      HandleChoicesConsistent(s, ctx, chunk.choices.value);
      CompleteConsistent(HandleChoices(s, ctx, chunk.choices.value), ctx, chunk.choices.value);
    }
  }

  lemma {:induction false} RunConsistent(s: State, ctx: Context, chunks: seq<Chunk>)
    requires Consistent(s) && s.started
    ensures Consistent(Run(s, ctx, chunks)) && Run(s, ctx, chunks).response == s.response
    decreases |chunks|
  {
    hide Consistent, Convert;
    if chunks != [] {
      ConvertConsistent(s, ctx, chunks[0]);
      RunConsistent(Convert(s, ctx, chunks[0]), ctx, chunks[1..]);
    }
  }

  /** The stream opens with the response it belongs to, once any chunk counts. */
  predicate Opens(log: seq<Event>, response: string) {
    |log| >= 2 && log[0].body == Created(response) && log[1].body == InProgress(response)
  }

  lemma {:induction false} StartConsistent(ctx: Context, id: string)
    ensures var s := Start(INITIAL_STATE, ctx, id);
            && Consistent(s) && s.started && s.response == (if id == "" then ctx.freshId else id)
            && Opens(s.log, s.response)
  {
  }

  /** Every event of every stream speaks of the one response, and so do the names of all reasoning and
      message items; the names of calls are those of their calls. */
  lemma {:induction false} OneResponse(ctx: Context, chunks: seq<Chunk>)
    ensures var log := Stream(ctx, chunks).log;
            && LogOf(log, ResponseId(ctx, chunks))
            && (if exists chunk :: chunk in chunks && Relevant(chunk) then Opens(log, ResponseId(ctx, chunks))
                else log == [])
    decreases |chunks|
  {
    hide Consistent, HandleChoices, Complete, LogOf;
    if chunks == [] {
      assert LogOf([], "") by { NothingSaid(); }
    } else {
      var first := chunks[0];
      if !Relevant(first) {
        assert Convert(INITIAL_STATE, ctx, first) == INITIAL_STATE;
        OneResponse(ctx, chunks[1..]);
        assert chunks == [first] + chunks[1..];
      } else {
        var s := Start(INITIAL_STATE, ctx, first.id);
        StartConsistent(ctx, first.id);
        assert Start(s, ctx, first.id) == s;
        assert Convert(INITIAL_STATE, ctx, first) == Convert(s, ctx, first);
        RunConsistent(s, ctx, chunks);
        RunExtends(s, ctx, chunks);
        assert LogOf(Run(s, ctx, chunks).log, s.response) by { Says(Run(s, ctx, chunks)); }
        assert first in chunks;
      }
    }
  }

  lemma {:induction false} NothingSaid()
    ensures LogOf([], "")
  {
  }

  lemma {:induction false} Says(s: State)
    requires Consistent(s)
    ensures LogOf(s.log, s.response)
  {
  }
}

/** Message and reasoning events speak of items that have been announced, under the index they were
    announced with: streams of any number of choices, fair or not. */
module CodexAnnouncements {
  import opened Options
  import opened ResponsesEvents
  import opened SortedKeys
  import opened OpenAIToCodex
  import opened CodexStreams

  // ---------------------------------------------------------------- announced items

  predicate Announces(body: Body, index: nat, id: ItemId) {
    body.ItemAdded? && body.index == index && body.item.id == id
  }

  /** Some event has announced item `id` at this output index. */
  predicate Known(log: seq<Event>, index: nat, id: ItemId) {
    exists k :: 0 <= k < |log| && Announces(log[k].body, index, id)
  }

  predicate Textual(id: ItemId) {
    id.RsId? || id.MsgId?
  }

  /** An event about a message or reasoning item comes after its announcement. */
  predicate Placed(log: seq<Event>, body: Body) {
    match body
    case PartAdded(_, id, index) => Textual(id) ==> Known(log, index, id)
    case Delta(_, id, index, _) => Textual(id) ==> Known(log, index, id)
    case TextDone(_, id, index, _) => Textual(id) ==> Known(log, index, id)
    case PartDone(_, id, index, _) => Textual(id) ==> Known(log, index, id)
    case ItemDone(index, item) => Textual(item.id) ==> Known(log, index, item.id)
    case _ => true
  }

  predicate AllPlaced(log: seq<Event>) {
    forall k :: 0 <= k < |log| ==> Placed(log[..k], log[k].body)
  }

  // ---------------------------------------------------------------- each step keeps it

  /** The items that the maps speak of have been announced where the maps say. */
  ghost predicate Tracked(s: State) {
    && AllPlaced(s.log)
    && (s.reasoning.id.Some? ==> Known(s.log, s.reasoning.index, s.reasoning.id.value))
    && (forall c :: c in s.messages.added ==>
          c in s.messages.index && Known(s.log, s.messages.index[c], MsgId(s.response, c)))
  }

  lemma {:induction false} KnownLater(log: seq<Event>, e: Event)
    ensures forall index: nat, id :: Known(log, index, id) ==> Known(log + [e], index, id)
    ensures e.body.ItemAdded? ==> Known(log + [e], e.body.index, e.body.item.id)
  {
    forall index: nat, id | Known(log, index, id) ensures Known(log + [e], index, id) {
      var k :| 0 <= k < |log| && Announces(log[k].body, index, id);
      assert Announces((log + [e])[k].body, index, id);
    }
    if e.body.ItemAdded? {
      assert Announces((log + [e])[|log|].body, e.body.index, e.body.item.id);
    }
  }

  /** One more event in its place. */
  lemma {:induction false} EmitPlaced(s: State, body: Body)
    requires AllPlaced(s.log) && Placed(s.log, body)
    ensures var r := Emit(s, body);
            && AllPlaced(r.log)
            && (forall index: nat, id :: Known(s.log, index, id) ==> Known(r.log, index, id))
            && (body.ItemAdded? ==> Known(r.log, body.index, body.item.id))
  {
    hide Placed, Known;
    var e := Event(s.seqNo + 1, body);
    KnownLater(s.log, e);
    forall k | 0 <= k < |s.log + [e]| ensures Placed((s.log + [e])[..k], (s.log + [e])[k].body) {
      assert (s.log + [e])[..k] == s.log[..k];
      assert s.log[..|s.log|] == s.log;
    }
  }

  lemma {:induction false} ClosingPlaced(s: State, channel: Channel, id: ItemId, index: nat, text: string, item: Item)
    requires AllPlaced(s.log) && Known(s.log, index, id) && item.id == id
    ensures var r := EmitClosing(s, channel, id, index, text, item);
            && AllPlaced(r.log) && (forall i: nat, o :: Known(s.log, i, o) ==> Known(r.log, i, o))
  {
    hide AllPlaced, Known;
    var s1 := Emit(s, TextDone(channel, id, index, text));
    EmitPlaced(s, TextDone(channel, id, index, text));
    EmitPlaced(s1, PartDone(channel, id, index, text));
    EmitPlaced(Emit(s1, PartDone(channel, id, index, text)), ItemDone(index, item));
  }

  lemma {:induction false} StopReasoningTracked(s: State)
    requires Tracked(s)
    ensures Tracked(StopReasoning(s))
  {
    hide AllPlaced, Known, EmitClosing;
    if s.reasoning.id.Some? {
      var now := s.reasoning;
      ClosingPlaced(s, SummaryText, now.id.value, now.index, now.buf, ReasoningItem(now.id.value, now.buf));
    }
  }

  lemma {:induction false} CloseMessageTracked(s: State, c: int)
    requires Tracked(s)
    ensures Tracked(CloseMessage(s, c))
  {
    hide AllPlaced, Known;
    if c in s.messages.added && c !in s.messages.done {
      var id, text := MsgId(s.response, c), Get(s.messages.text, c);
      ClosingPlaced(s, OutputText, id, s.messages.index[c], text, MessageItem(id, text));
    }
  }

  lemma {:induction false} AnnounceMessageTracked(s: State, c: int)
    requires Tracked(s)
    ensures Tracked(AnnounceMessage(s, c)) && c in AnnounceMessage(s, c).messages.added
  {
    hide AllPlaced, Known;
    if c !in s.messages.added {
      EmitPlaced(AssignMsgIndex(s, c), ItemAdded(MsgOutIdx(s, c), MessageItem(MsgId(s.response, c), "")));
    }
  }

  lemma {:induction false} AddMessagePartTracked(s: State, c: int)
    requires Tracked(s) && c in s.messages.added
    ensures Tracked(AddMessagePart(s, c)) && c in AddMessagePart(s, c).messages.added
  {
    hide AllPlaced, Known;
    EmitPlaced(s, PartAdded(OutputText, MsgId(s.response, c), s.messages.index[c]));
  }

  lemma {:induction false} SayTracked(s: State, c: int, text: string)
    requires Tracked(s) && c in s.messages.added
    ensures Tracked(Say(s, c, text))
  {
    hide AllPlaced, Known;
    EmitPlaced(s, Delta(OutputText, MsgId(s.response, c), s.messages.index[c], text));
  }

  lemma {:induction false} HandleContentTracked(s: State, c: int, text: string)
    requires Tracked(s)
    ensures Tracked(HandleContent(s, c, text))
  {
    hide Tracked, StopReasoning, AnnounceMessage, AddMessagePart, Say;
    if text != "" {
      StopReasoningTracked(s);
      AnnounceMessageTracked(StopReasoning(s), c);
      AddMessagePartTracked(AnnounceMessage(StopReasoning(s), c), c);
      SayTracked(AddMessagePart(AnnounceMessage(StopReasoning(s), c), c), c, text);
    }
  }

  lemma {:induction false} HandleReasoningTracked(s: State, c: int, text: string)
    requires Tracked(s)
    ensures Tracked(HandleReasoning(s, c, text))
  {
    hide AllPlaced, Known;
    if text != "" {
      var id, n := RsId(s.response, c), s.nextIndex;
      var s1 := Emit(s, ItemAdded(n, ReasoningItem(id, "")));
      if s.reasoning.id.None? {
        EmitPlaced(s, ItemAdded(n, ReasoningItem(id, "")));
        EmitPlaced(s1, PartAdded(SummaryText, id, n));
      }
      var s2 := OpenReasoning(s, c);
      EmitPlaced(s2, Delta(SummaryText, s2.reasoning.id.value, s2.reasoning.index, text));
    }
  }

  lemma {:induction false} AnnounceToolTracked(s: State, i: int)
    requires Tracked(s)
    ensures Tracked(AnnounceTool(s, i))
  {
    hide AllPlaced, Known;
    EmitPlaced(s, ItemAdded(FuncOutIdx(s, i), AnnouncedItem(s, i)));
  }

  lemma {:induction false} FlushArgumentsTracked(s: State, i: int)
    requires Tracked(s)
    ensures Tracked(FlushArguments(s, i))
  {
    hide AllPlaced, Known;
    var call, full, sent := Get(s.tools.callIds, i), Get(s.tools.args, i), IndexOf(s.tools.sent, i);
    if |full| > sent {
      EmitPlaced(s, Delta(Arguments, FcId(call), FuncOutIdx(s, i), full[sent..]));
    }
  }

  lemma {:induction false} HandleToolTracked(s: State, i: int, d: ToolDelta)
    requires Tracked(s)
    ensures Tracked(HandleTool(s, i, d))
  {
    hide AllPlaced, Known, NoteTool, AnnounceTool, BufferArguments, FlushArguments;
    var s0 := s.(tools := NoteTool(s.tools, i, d));
    AnnounceToolTracked(s0, i);
    var s1 := AnnounceTool(s0, i);
    FlushArgumentsTracked(s1.(tools := BufferArguments(s1.tools, i, d.arguments)), i);
  }

  lemma {:induction false} HandleToolsFromTracked(s: State, ds: seq<ToolDelta>, k: nat)
    requires Tracked(s) && k <= |ds|
    ensures Tracked(HandleToolsFrom(s, ds, k))
    decreases |ds| - k
  {
    hide Tracked, HandleTool;
    if k < |ds| {
      HandleToolTracked(s, CallIndex(ds[k], k), ds[k]);
      HandleToolsFromTracked(HandleTool(s, CallIndex(ds[k], k), ds[k]), ds, k + 1);
    }
  }

  lemma {:induction false} EmitFinalTracked(s: State, ctx: Context, i: int, index: nat)
    requires Tracked(s)
    ensures Tracked(EmitFinal(s, ctx, i, index))
  {
    hide AllPlaced, Known;
    var call, name, args := Get(s.tools.callIds, i), Get(s.tools.names, i), FinalArguments(Get(s.tools.args, i));
    if IsCustom(s, i) {
      EmitPlaced(s, ItemDone(index, CustomItem(CtcId(call), call, name, ctx.unwrap(args))));
    } else {
      var s1 := Emit(s, TextDone(Arguments, FcId(call), index, args));
      EmitPlaced(s, TextDone(Arguments, FcId(call), index, args));
      EmitPlaced(s1, ItemDone(index, FunctionItem(FcId(call), call, name, args)));
    }
  }

  lemma {:induction false} FinishToolTracked(s: State, ctx: Context, i: int)
    requires Tracked(s)
    ensures Tracked(FinishTool(s, ctx, i))
  {
    hide AllPlaced, Known, EmitFinal;
    EmitFinalTracked(AssignFuncIndex(s, i), ctx, i, FuncOutIdx(s, i));
  }

  lemma {:induction false} CloseMessagesTracked(s: State, keys: seq<int>)
    requires Tracked(s)
    ensures Tracked(CloseMessages(s, keys))
    decreases |keys|
  {
    hide Tracked, CloseMessage;
    if keys != [] {
      CloseMessageTracked(s, keys[0]);
      CloseMessagesTracked(CloseMessage(s, keys[0]), keys[1..]);
    }
  }

  lemma {:induction false} FinishToolsTracked(s: State, ctx: Context, keys: seq<int>)
    requires Tracked(s)
    ensures Tracked(FinishTools(s, ctx, keys))
    decreases |keys|
  {
    hide Tracked, FinishTool;
    if keys != [] {
      FinishToolTracked(s, ctx, keys[0]);
      FinishToolsTracked(FinishTool(s, ctx, keys[0]), ctx, keys[1..]);
    }
  }

  lemma {:induction false} HandleChoiceTracked(s: State, ctx: Context, ch: Choice)
    requires Tracked(s)
    ensures Tracked(HandleChoice(s, ctx, ch))
  {
    hide Tracked, HandleContent, HandleReasoning, HandleToolsFrom, CloseMessage, StopReasoning, CloseMessages;
    hide FinishTools;
    HandleContentTracked(s, ch.index, ch.content);
    var s1 := HandleContent(s, ch.index, ch.content);
    HandleReasoningTracked(s1, ch.index, ch.reasoning);
    var s2 := HandleReasoning(s1, ch.index, ch.reasoning);
    if ch.tools.Some? {
      StopReasoningTracked(s2);
      CloseMessageTracked(StopReasoning(s2), ch.index);
      HandleToolsFromTracked(CloseMessage(StopReasoning(s2), ch.index), ch.tools.value, 0);
    }
    var s3 := HandleTools(s2, ch.index, ch.tools);
    if ch.finishReason != "" {
      var s4 := CloseMessages(s3, Sorted(s3.messages.added));
      CloseMessagesTracked(s3, Sorted(s3.messages.added));
      StopReasoningTracked(s4);
      FinishToolsTracked(StopReasoning(s4), ctx, Sorted(StopReasoning(s4).tools.callIds.Keys));
    }
  }

  lemma {:induction false} HandleChoicesTracked(s: State, ctx: Context, choices: seq<Choice>)
    requires Tracked(s)
    ensures Tracked(HandleChoices(s, ctx, choices))
    decreases |choices|
  {
    hide Tracked, HandleChoice;
    if choices != [] {
      HandleChoiceTracked(s, ctx, choices[0]);
      HandleChoicesTracked(HandleChoice(s, ctx, choices[0]), ctx, choices[1..]);
    }
  }

  lemma {:induction false} CompleteTracked(s: State, ctx: Context, choices: seq<Choice>)
    requires Tracked(s)
    ensures Tracked(Complete(s, ctx, choices))
  {
    hide AllPlaced, Known, Output;
    EmitPlaced(s.(completed := true), Completed(s.response, Output(s, ctx)));
  }

  lemma {:induction false} StartTracked(s: State, ctx: Context, id: string)
    requires Tracked(s)
    ensures Tracked(Start(s, ctx, id))
  {
    hide AllPlaced, Known;
    var resp := if id == "" then ctx.freshId else id;
    EmitPlaced(s, Created(resp));
    EmitPlaced(Emit(s, Created(resp)), InProgress(resp));
  }

  lemma {:induction false} RunTracked(s: State, ctx: Context, chunks: seq<Chunk>)
    requires Tracked(s)
    ensures Tracked(Run(s, ctx, chunks))
    decreases |chunks|
  {
    hide Tracked, Start, HandleChoices, Complete;
    if chunks != [] {
      if Relevant(chunks[0]) {
        var choices := chunks[0].choices.value;
        StartTracked(s, ctx, chunks[0].id);
        HandleChoicesTracked(Start(s, ctx, chunks[0].id), ctx, choices);
        CompleteTracked(HandleChoices(Start(s, ctx, chunks[0].id), ctx, choices), ctx, choices);
      }
      RunTracked(Convert(s, ctx, chunks[0]), ctx, chunks[1..]);
    }
  }

  /** In every stream every part, delta and end of a message or reasoning item comes after the event
      that announced that very item at that output index. */
  lemma {:induction false} AnnouncedFirst(ctx: Context, chunks: seq<Chunk>)
    ensures AllPlaced(Stream(ctx, chunks).log)
  {
    hide Run;
    assert Tracked(INITIAL_STATE);
    RunTracked(INITIAL_STATE, ctx, chunks);
  }
}

/** The converter as the program keeps it: an object whose fields change event by event.
    Each method is proved to do exactly what the function of the same name in OpenAIToCodex says. */
module ResponsesConverter {
  import opened Options
  import opened ResponsesEvents
  import opened SortedKeys
  import S = OpenAIToCodex

  class Converter {
    const ctx: S.Context

    var seqNo: nat
    var started: bool
    var response: string
    var custom: set<string>
    var nextOutputIndex: nat
    var completedSent: bool

    var reasoningId: Option<ItemId>
    var reasoningIndex: nat
    var reasoningBuf: string
    var reasonings: seq<Item>

    var msgTextBuf: map<int, string>
    var msgItemAdded: set<int>
    var msgContentAdded: set<int>
    var msgItemDone: set<int>
    var msgOutputIndex: map<int, nat>

    var funcArgsBuf: map<int, string>
    var funcNames: map<int, string>
    var funcCallIds: map<int, string>
    var funcItemAdded: set<int>
    var funcArgsEmitted: map<int, nat>
    var funcItemDone: set<int>
    var funcOutputIndex: map<int, nat>

    /** Every event written so far. */
    var out: seq<Event>

    ghost function ReasoningView(): S.Reasoning
      reads this`reasoningId, this`reasoningIndex, this`reasoningBuf, this`reasonings
    {
      S.Reasoning(reasoningId, reasoningIndex, reasoningBuf, reasonings)
    }

    ghost function MessagesView(): S.Messages
      reads this`msgTextBuf, this`msgItemAdded, this`msgContentAdded, this`msgItemDone, this`msgOutputIndex
    {
      S.Messages(msgTextBuf, msgItemAdded, msgContentAdded, msgItemDone, msgOutputIndex)
    }

    ghost function ToolsView(): S.Tools
      reads this`funcArgsBuf, this`funcNames, this`funcCallIds, this`funcItemAdded, this`funcArgsEmitted,
            this`funcItemDone, this`funcOutputIndex
    {
      S.Tools(funcArgsBuf, funcNames, funcCallIds, funcItemAdded, funcArgsEmitted, funcItemDone, funcOutputIndex)
    }

    ghost function View(): S.State
      reads this
    {
      S.State(seqNo, started, response, custom, nextOutputIndex, completedSent,
              ReasoningView(), MessagesView(), ToolsView(), out)
    }

    constructor (ctx: S.Context)
      ensures View() == S.INITIAL_STATE && this.ctx == ctx
    {
      this.ctx := ctx;
      seqNo, started, response, custom, nextOutputIndex, completedSent := 0, false, "", {}, 0, false;
      reasoningId, reasoningIndex, reasoningBuf, reasonings := None, 0, "", [];
      msgTextBuf, msgItemAdded, msgContentAdded, msgItemDone, msgOutputIndex := map[], {}, {}, {}, map[];
      funcArgsBuf, funcNames, funcCallIds := map[], map[], map[];
      funcItemAdded, funcArgsEmitted, funcItemDone, funcOutputIndex := {}, map[], {}, map[];
      out := [];
    }

    method Emit(body: Body)
      modifies this`seqNo, this`out
      ensures View() == S.Emit(old(View()), body)
    {
      hide ReasoningView, MessagesView, ToolsView;
      seqNo := seqNo + 1;
      out := out + [Event(seqNo, body)];
    }

    method MsgOutIdx(c: int) returns (oi: nat)
      modifies this`msgOutputIndex, this`nextOutputIndex
      ensures oi == S.MsgOutIdx(old(View()), c) && View() == S.AssignMsgIndex(old(View()), c)
    {
      hide ReasoningView, ToolsView;
      if c in msgOutputIndex {
        return msgOutputIndex[c];
      }
      oi := nextOutputIndex;
      msgOutputIndex := msgOutputIndex[c := oi];
      nextOutputIndex := nextOutputIndex + 1;
    }

    method FuncOutIdx(i: int) returns (oi: nat)
      modifies this`funcOutputIndex, this`nextOutputIndex
      ensures oi == S.FuncOutIdx(old(View()), i) && View() == S.AssignFuncIndex(old(View()), i)
    {
      hide ReasoningView, MessagesView;
      if i in funcOutputIndex {
        return funcOutputIndex[i];
      }
      oi := nextOutputIndex;
      funcOutputIndex := funcOutputIndex[i := oi];
      nextOutputIndex := nextOutputIndex + 1;
    }

    method ResetMessages()
      modifies this`msgTextBuf, this`msgItemAdded, this`msgContentAdded, this`msgItemDone, this`msgOutputIndex
      ensures MessagesView() == S.NO_MESSAGES
    {
      msgTextBuf, msgItemAdded, msgContentAdded, msgItemDone, msgOutputIndex := map[], {}, {}, {}, map[];
    }

    method ResetTools()
      modifies this`funcArgsBuf, this`funcNames, this`funcCallIds, this`funcItemAdded, this`funcArgsEmitted,
               this`funcItemDone, this`funcOutputIndex
      ensures ToolsView() == S.NO_TOOLS
    {
      funcArgsBuf, funcNames, funcCallIds := map[], map[], map[];
      funcItemAdded, funcArgsEmitted, funcItemDone, funcOutputIndex := {}, map[], {}, map[];
    }

    method ResetReasoning()
      modifies this`reasoningId, this`reasoningIndex, this`reasoningBuf
      ensures ReasoningView() == S.NO_REASONING.(done := reasonings)
    {
      reasoningId, reasoningIndex, reasoningBuf := None, 0, "";
    }

    method ResetSettings(id: string)
      modifies this`response, this`nextOutputIndex, this`completedSent, this`custom, this`started
      ensures response == (if id == "" then ctx.freshId else id) && nextOutputIndex == 0 && !completedSent
      ensures custom == ctx.custom && started
    {
      response := if id == "" then ctx.freshId else id;
      nextOutputIndex := 0;
      completedSent := false;
      custom := ctx.custom;
      started := true;
    }

    method Reset(id: string)
      modifies this
      ensures View() == S.State(old(seqNo), true, if id == "" then ctx.freshId else id, ctx.custom, 0, false,
                                S.NO_REASONING.(done := old(reasonings)), S.NO_MESSAGES, S.NO_TOOLS, old(out))
    {
      hide ReasoningView, MessagesView, ToolsView;
      ResetReasoning();
      ResetMessages();
      ResetTools();
      ResetSettings(id);
    }

    method Start(id: string)
      modifies this
      ensures View() == S.Start(old(View()), ctx, id)
    {
      if !started {
        Reset(id);
        Emit(Created(response));
        Emit(InProgress(response));
      }
    }

    method EmitClosing(channel: Channel, id: ItemId, index: nat, text: string, item: Item)
      modifies this`seqNo, this`out
      ensures View() == S.EmitClosing(old(View()), channel, id, index, text, item)
    {
      Emit(TextDone(channel, id, index, text));
      Emit(PartDone(channel, id, index, text));
      Emit(ItemDone(index, item));
    }

    method StopReasoning()
      modifies this`seqNo, this`out, this`reasoningId, this`reasoningBuf, this`reasonings
      ensures View() == S.StopReasoning(old(View()))
    {
      hide S.EmitClosing, MessagesView, ToolsView;
      if reasoningId.Some? {
        var item := ReasoningItem(reasoningId.value, reasoningBuf);
        EmitClosing(SummaryText, reasoningId.value, reasoningIndex, reasoningBuf, item);
        KeepReasoning(item);
      }
    }

    method KeepReasoning(item: Item)
      modifies this`reasoningId, this`reasoningBuf, this`reasonings
      ensures ReasoningView() == S.Reasoning(None, reasoningIndex, "", old(reasonings) + [item])
    {
      reasonings := reasonings + [item];
      reasoningId := None;
      reasoningBuf := "";
    }

    method AnnounceMessage(c: int)
      modifies this
      ensures View() == S.AnnounceMessage(old(View()), c)
    {
      if c !in msgItemAdded {
        var oi := MsgOutIdx(c);
        Emit(ItemAdded(oi, MessageItem(MsgId(response, c), "")));
        msgItemAdded := msgItemAdded + {c};
      }
    }

    method AddMessagePart(c: int)
      modifies this
      ensures View() == S.AddMessagePart(old(View()), c)
    {
      if c !in msgContentAdded {
        var oi := MsgOutIdx(c);
        Emit(PartAdded(OutputText, MsgId(response, c), oi));
        msgContentAdded := msgContentAdded + {c};
      }
    }

    method HandleContent(c: int, text: string)
      modifies this
      ensures View() == S.HandleContent(old(View()), c, text)
    {
      hide S.StopReasoning, S.AnnounceMessage, S.AddMessagePart, S.Say;
      if text != "" {
        StopReasoning();
        AnnounceMessage(c);
        AddMessagePart(c);
        Say(c, text);
      }
    }

    method Say(c: int, text: string)
      modifies this
      ensures View() == S.Say(old(View()), c, text)
    {
      var oi := MsgOutIdx(c);
      Emit(Delta(OutputText, MsgId(response, c), oi, text));
      msgTextBuf := msgTextBuf[c := S.Get(msgTextBuf, c) + text];
    }

    method BeginReasoning(id: ItemId)
      modifies this`reasoningId, this`reasoningIndex, this`nextOutputIndex
      ensures View().reasoning == old(View()).reasoning.(id := Some(id), index := old(nextOutputIndex))
      ensures nextOutputIndex == old(nextOutputIndex) + 1
    {
      hide MessagesView, ToolsView;
      reasoningId := Some(id);
      reasoningIndex := nextOutputIndex;
      nextOutputIndex := nextOutputIndex + 1;
    }

    method OpenReasoning(c: int)
      modifies this`seqNo, this`out, this`reasoningId, this`reasoningIndex, this`nextOutputIndex
      ensures View() == S.OpenReasoning(old(View()), c)
    {
      hide MessagesView, ToolsView;
      if reasoningId.None? {
        var id := RsId(response, c);
        BeginReasoning(id);
        Emit(ItemAdded(reasoningIndex, ReasoningItem(id, "")));
        Emit(PartAdded(SummaryText, id, reasoningIndex));
      }
    }

    method HandleReasoning(c: int, text: string)
      modifies this
      ensures View() == S.HandleReasoning(old(View()), c, text)
    {
      hide S.OpenReasoning;
      if text != "" {
        OpenReasoning(c);
        assert reasoningId.Some? by { S.OpenReasoningOpens(old(View()), c); }
        reasoningBuf := reasoningBuf + text;
        Emit(Delta(SummaryText, reasoningId.value, reasoningIndex, text));
      }
    }

    method CloseMessage(c: int)
      modifies this
      ensures View() == S.CloseMessage(old(View()), c)
    {
      if c in msgItemAdded && c !in msgItemDone {
        var text := S.Get(msgTextBuf, c);
        var oi := MsgOutIdx(c);
        EmitClosing(OutputText, MsgId(response, c), oi, text, MessageItem(MsgId(response, c), text));
        msgItemDone := msgItemDone + {c};
      }
    }

    method AnnounceTool(i: int)
      modifies this
      ensures View() == S.AnnounceTool(old(View()), i)
    {
      var call, name := S.Get(funcCallIds, i), S.Get(funcNames, i);
      if i !in funcItemAdded && call != "" && name != "" {
        funcItemAdded := funcItemAdded + {i};
        var oi := FuncOutIdx(i);
        if name in custom {
          Emit(ItemAdded(oi, CustomItem(CtcId(call), call, name, "")));
        } else {
          Emit(ItemAdded(oi, FunctionItem(FcId(call), call, name, "")));
        }
      }
    }

    method FlushArguments(i: int)
      modifies this
      ensures View() == S.FlushArguments(old(View()), i)
    {
      var call := S.Get(funcCallIds, i);
      if S.Get(funcNames, i) !in custom && i in funcItemAdded && call != "" {
        var full := S.Get(funcArgsBuf, i);
        var sent := S.IndexOf(funcArgsEmitted, i);
        if |full| > sent {
          var oi := FuncOutIdx(i);
          Emit(Delta(Arguments, FcId(call), oi, full[sent..]));
          funcArgsEmitted := funcArgsEmitted[i := |full|];
        }
      }
    }

    method NoteTool(i: int, d: S.ToolDelta)
      modifies this`funcNames, this`funcCallIds
      ensures View().tools == S.NoteTool(old(View()).tools, i, d)
    {
      if d.name != "" {
        funcNames := funcNames[i := d.name];
      }
      if S.Get(funcCallIds, i) == "" && d.id != "" {
        funcCallIds := funcCallIds[i := d.id];
      }
    }

    method HandleTool(i: int, d: S.ToolDelta)
      modifies this
      ensures View() == S.HandleTool(old(View()), i, d)
    {
      hide S.NoteTool, S.AnnounceTool, S.FlushArguments, S.BufferArguments, ReasoningView, MessagesView, ToolsView;
      NoteTool(i, d);
      AnnounceTool(i);
      BufferArguments(i, d.arguments);
      FlushArguments(i);
    }

    method BufferArguments(i: int, args: string)
      modifies this`funcArgsBuf
      ensures ToolsView() == S.BufferArguments(old(ToolsView()), i, args)
    {
      funcArgsBuf := funcArgsBuf[i := S.Get(funcArgsBuf, i) + args];
    }

    method HandleTools(c: int, tools: Option<seq<S.ToolDelta>>)
      modifies this
      ensures View() == S.HandleTools(old(View()), c, tools)
    {
      if tools.Some? {
        StopReasoning();
        CloseMessage(c);
        ghost var s := View();
        var ds := tools.value;
        for k := 0 to |ds|
          invariant S.HandleToolsFrom(View(), ds, k) == S.HandleToolsFrom(s, ds, 0)
        {
          HandleTool(S.CallIndex(ds[k], k), ds[k]);
        }
      }
    }

    method FinishTool(i: int)
      modifies this
      ensures View() == S.FinishTool(old(View()), ctx, i)
    {
      hide S.EmitFinal;
      if S.Get(funcCallIds, i) != "" && i !in funcItemDone {
        var oi := FuncOutIdx(i);
        EmitFinal(i, oi);
        funcItemDone := funcItemDone + {i};
      }
    }

    method EmitFinal(i: int, oi: nat)
      modifies this`seqNo, this`out
      ensures View() == S.EmitFinal(old(View()), ctx, i, oi)
    {
      hide S.Emit;
      var call, name, args := S.Get(funcCallIds, i), S.Get(funcNames, i), S.Get(funcArgsBuf, i);
      args := if args == "" then "{}" else args;
      if name in custom {
        Emit(ItemDone(oi, CustomItem(CtcId(call), call, name, ctx.unwrap(args))));
      } else {
        Emit(TextDone(Arguments, FcId(call), oi, args));
        Emit(ItemDone(oi, FunctionItem(FcId(call), call, name, args)));
      }
    }

    method Finish()
      modifies this
      ensures View() == S.Finish(old(View()), ctx)
    {
      ghost var s := View();
      var keys := Sorted(msgItemAdded);
      for k := 0 to |keys|
        invariant S.CloseMessages(View(), keys[k..]) == S.CloseMessages(s, keys)
      {
        assert keys[k..][1..] == keys[k + 1..];
        CloseMessage(keys[k]);
      }
      assert keys[|keys|..] == [];
      StopReasoning();
      s := View();
      keys := Sorted(funcCallIds.Keys);
      for k := 0 to |keys|
        invariant S.FinishTools(View(), ctx, keys[k..]) == S.FinishTools(s, ctx, keys)
      {
        assert keys[k..][1..] == keys[k + 1..];
        FinishTool(keys[k]);
      }
      assert keys[|keys|..] == [];
    }

    method HandleChoice(ch: S.Choice)
      modifies this
      ensures View() == S.HandleChoice(old(View()), ctx, ch)
    {
      HandleContent(ch.index, ch.content);
      HandleReasoning(ch.index, ch.reasoning);
      HandleTools(ch.index, ch.tools);
      if ch.finishReason != "" {
        Finish();
      }
    }

    method OutputMessages(keys: seq<int>) returns (items: seq<Item>)
      ensures items == S.OutputMessages(View(), keys)
    {
      items := [];
      for k := 0 to |keys|
        invariant items + S.OutputMessages(View(), keys[k..]) == S.OutputMessages(View(), keys)
      {
        assert keys[k..][1..] == keys[k + 1..];
        items := items + [MessageItem(MsgId(response, keys[k]), S.Get(msgTextBuf, keys[k]))];
      }
      assert keys[|keys|..] == [];
    }

    method OutputTools(keys: seq<int>) returns (items: seq<Item>)
      ensures items == S.OutputTools(View(), ctx, keys)
    {
      hide S.ToolItem;
      items := [];
      for k := 0 to |keys|
        invariant items + S.OutputTools(View(), ctx, keys[k..]) == S.OutputTools(View(), ctx, keys)
      {
        assert keys[k..][1..] == keys[k + 1..];
        var i := keys[k];
        items := items + [S.ToolItem(ctx, custom, S.Get(funcCallIds, i), S.Get(funcNames, i), S.Get(funcArgsBuf, i))];
      }
      assert keys[|keys|..] == [];
    }

    method HandleChoices(choices: seq<S.Choice>) returns (finish: bool)
      modifies this
      ensures View() == S.HandleChoices(old(View()), ctx, choices) && finish == S.HasFinish(choices)
    {
      hide S.HandleChoice;
      finish := false;
      for k := 0 to |choices|
        invariant S.HandleChoices(View(), ctx, choices[k..]) == S.HandleChoices(old(View()), ctx, choices)
        invariant finish <==> S.HasFinish(choices[..k])
      {
        assert choices[k..][1..] == choices[k + 1..];
        assert choices[..k + 1] == choices[..k] + [choices[k]];
        HandleChoice(choices[k]);
        finish := finish || choices[k].finishReason != "";
      }
      assert choices[|choices|..] == [] && choices[..|choices|] == choices;
    }

    /** One upstream chunk; `emitted` are the events it gives rise to. */
    method Convert(chunk: S.Chunk) returns (emitted: seq<Event>)
      modifies this
      ensures View() == S.Convert(old(View()), ctx, chunk) && out == old(out) + emitted
    {
      hide S.Start, S.HandleChoices, S.HasFinish, S.OutputMessages, S.OutputTools;
      if (chunk.objectType != "" && chunk.objectType != "chat.completion.chunk") || chunk.choices.None? {
        return [];
      }
      var written := |out|;
      Start(chunk.id);
      var finish := HandleChoices(chunk.choices.value);
      if !completedSent && finish {
        var messages := OutputMessages(Sorted(msgItemAdded));
        var tools := OutputTools(Sorted(funcCallIds.Keys));
        completedSent := true;
        Emit(Completed(response, reasonings + messages + tools));
      }
      Extends(old(View()), chunk);
      emitted := out[written..];
    }

    lemma {:induction false} Extends(s: S.State, chunk: S.Chunk)
      ensures s.log <= S.Convert(s, ctx, chunk).log
    {
    }
  }

  /** A whole stream, chunk by chunk. */
  method ConvertAll(ctx: S.Context, chunks: seq<S.Chunk>) returns (out: seq<Event>)
    ensures out == S.Stream(ctx, chunks).log
  {
    var converter := new Converter(ctx);
    out := [];
    for k := 0 to |chunks|
      invariant converter.ctx == ctx && out == converter.out
      invariant S.Run(converter.View(), ctx, chunks[k..]) == S.Stream(ctx, chunks)
    {
      assert chunks[k..][1..] == chunks[k + 1..];
      var emitted := converter.Convert(chunks[k]);
      out := out + emitted;
    }
    assert chunks[|chunks|..] == [];
  }
}

/** Which single-choice streams the converter turns into a well-formed event stream: exactly
    the fair ones. */
module CodexStreamExact {
  import opened Options
  import opened ResponsesEvents
  import opened SortedKeys
  import opened OpenAIToCodex
  import opened CodexStreamSafety

  lemma {:induction false} BrokenStays(log: seq<Event>, longer: seq<Event>)
    requires log <= longer && Read(log).Broken?
    ensures Read(longer).Broken?
    decreases |longer|
  {
    if |log| < |longer| {
      assert log <= longer[..|longer| - 1];
      BrokenStays(log, longer[..|longer| - 1]);
    } else {
      assert log == longer;
    }
  }

  lemma {:induction false} DeltaBreaks(s: State, items: seq<Live>, channel: Channel, id: ItemId, i: nat, delta: string)
    requires Reads(s, items)
    requires i < |items| ==> items[i].stage != Streaming || items[i].item.id != id
    ensures Read(Emit(s, Delta(channel, id, i, delta)).log).Broken?
  {
    EmitRead(s, Delta(channel, id, i, delta));
  }

  lemma {:induction false} ItemDoneBreaks(s: State, items: seq<Live>, at: nat, item: Item)
    requires Reads(s, items)
    requires at < |items| ==> items[at].stage != PartFinal || !Finishes(items[at], item)
    ensures Read(Emit(s, ItemDone(at, item)).log).Broken?
  {
    EmitRead(s, ItemDone(at, item));
  }

  /** Final arguments followed by an item that is not the one announced. */
  lemma {:induction false} ArgsDoneBreaks(s: State, items: seq<Live>, at: nat, id: ItemId, args: string, item: Item)
    requires Reads(s, items)
    requires at < |items| && items[at].item.id == id && items[at].stage == Streaming ==>
               items[at].item.FunctionItem? && item.FunctionItem? && item.name != items[at].item.name
    ensures Read(Emit(Emit(s, TextDone(Arguments, id, at, args)), ItemDone(at, item)).log).Broken?
  {
    var b := TextDone(Arguments, id, at, args);
    EmitRead(s, b);
    var s1 := Emit(s, b);
    EmitRead(s1, ItemDone(at, item));
  }

  // ---------------------------------------------------------------- what an unfair stream does

  lemma {:induction false} SealedContentBreaks(s0: State, c: int, h0: Heard, text: string)
    requires Sound(s0, c, h0) && !h0.finished && h0.sealed && text != ""
    ensures Read(HandleContent(s0, c, text).log).Broken?
  {
    hide Read, Accept, ReasoningTracks, ToolsPlaced, SameCalls, AllFlushed, StopReasoning;
    StopReasoningSound(s0, c, h0);
    var s := StopReasoning(s0);
    DeltaBreaks(s, Items(s), OutputText, MsgId(s.response, c), s.messages.index[c], text);
  }

  lemma {:induction false} FlushBreaks(s: State, announced: map<int, string>, items: seq<Live>, i: int)
    requires Reads(s, items) && ToolsPlaced(s.tools, s.custom, announced, items) && i in announced
    requires s.tools.index.Keys == s.tools.added == announced.Keys && Get(s.tools.callIds, i) != ""
    requires announced[i] in s.custom && !IsCustom(s, i) && Get(s.tools.args, i) != ""
    ensures Read(FlushArguments(s, i).log).Broken?
  {
    hide Read, Accept;
    assert ToolPlace(s.tools, s.custom, announced[i], i, items);
    DeltaBreaks(s, items, Arguments, FcId(Get(s.tools.callIds, i)), s.tools.index[i], Get(s.tools.args, i)[0..]);
  }

  lemma {:induction false} UnfairToolBreaks(s: State, c: int, h: Heard, i: int, d: ToolDelta)
    requires Sound(s, c, h) && !h.finished && !FairTool(HearTool(h, i, d), s.custom, i)
    ensures Read(HandleTool(s, i, d).log).Broken?
  {
    hide Read, Accept, ToolsPlaced, AnnounceTool, FlushArguments, ToolPlace, NoteTool, HearTool, Flushed, SameCall,
         ReasoningTracks, MessageTracks;
    var h', items := HearTool(h, i, d), Items(s);
    NoteFacts(s.tools, h, i, d);
    NoteToolPlaced(s.tools, s.custom, h.announced, items, i, d);
    var s1 := s.(tools := NoteTool(s.tools, i, d));
    var items2 := AnnounceEffect(s1, h.announced, items, i);
    AnnounceShape(s1, i);
    var s2 := AnnounceTool(s1, i);
    BufferPlaced(s2.tools, s.custom, h'.announced, items2, i, d.arguments);
    FlushBreaks(s2.(tools := BufferArguments(s2.tools, i, d.arguments)), h'.announced, items2, i);
  }

  lemma {:induction false} UnfairToolsBreak(s: State, c: int, h: Heard, ds: seq<ToolDelta>, k: nat)
    requires Sound(s, c, h) && !h.finished && k <= |ds| && !FairToolsFrom(h, s.custom, ds, k)
    ensures Read(HandleToolsFrom(s, ds, k).log).Broken?
    decreases |ds| - k
  {
    hide Sound, HandleTool, FairTool, Read;
    var i := CallIndex(ds[k], k);
    var h', s' := HearTool(h, i, ds[k]), HandleTool(s, i, ds[k]);
    if FairTool(h', s.custom, i) {
      HandleToolSound(s, c, h, i, ds[k]);
      UnfairToolsBreak(s', c, h', ds, k + 1);
    } else {
      UnfairToolBreaks(s, c, h, i, ds[k]);
      BrokenStays(s'.log, HandleToolsFrom(s', ds, k + 1).log);
    }
  }

  lemma {:induction false} Unfair(t: Tools, h: Heard, i: int)
    requires !FairCall(h, i) && SameCalls(t, h.calls, h.announced)
    ensures i in t.callIds && (i in h.announced ==> h.announced[i] != Get(t.names, i))
    ensures i in t.index <==> i in h.announced
  {
    assert SameCall(t, h.calls, h.announced, i);
  }

  lemma {:induction false} UnfairCallBreaks(s: State, ctx: Context, c: int, h: Heard, i: int)
    requires Sound(s, c, h) && !FairCall(h, i) && i !in s.tools.done && Get(s.tools.callIds, i) != ""
    ensures Read(FinishTool(s, ctx, i).log).Broken?
  {
    hide Read, Accept, ReasoningTracks, MessageTracks, FairCall, AllFlushed, SameCalls, ToolsPlaced;
    var call, name, args := Get(s.tools.callIds, i), Get(s.tools.names, i), FinalArguments(Get(s.tools.args, i));
    var items, at, t := Items(s), FuncOutIdx(s, i), AssignFuncIndex(s, i);
    Unfair(s.tools, h, i);
    if i in h.announced {
      PlaceOf(s.tools, s.custom, h.announced, items, i);
    }
    if IsCustom(s, i) {
      ItemDoneBreaks(t, items, at, CustomItem(CtcId(call), call, name, ctx.unwrap(args)));
    } else {
      ArgsDoneBreaks(t, items, at, FcId(call), args, FunctionItem(FcId(call), call, name, args));
    }
  }

  lemma {:induction false} UnfairCallsBreak(s: State, ctx: Context, c: int, h: Heard, keys: seq<int>, i: int)
    requires Sound(s, c, h) && h.finished && i in keys && !FairCall(h, i)
    requires forall k :: k in keys ==> k in s.tools.callIds && k !in s.tools.done
    requires forall j, k :: 0 <= j < k < |keys| ==> keys[j] < keys[k]
    ensures Read(FinishTools(s, ctx, keys).log).Broken?
    decreases |keys|
  {
    hide Read, FinishTool, FairCall, Reads, ReasoningTracks, MessageTracks, ToolsPlaced, AllFlushed;
    var s' := FinishTool(s, ctx, keys[0]);
    if FairCall(h, keys[0]) {
      FinishToolSound(s, ctx, c, h, keys[0]);
      UnfairCallsBreak(s', ctx, c, h, keys[1..], i);
    } else {
      assert SameCall(s.tools, h.calls, h.announced, keys[0]);
      UnfairCallBreaks(s, ctx, c, h, keys[0]);
      BrokenStays(s'.log, FinishTools(s', ctx, keys[1..]).log);
    }
  }

  lemma {:induction false} UnfairFinishBreaks(s: State, ctx: Context, c: int, h: Heard)
    requires Sound(s, c, h) && !h.finished && !FairFinish(h)
    ensures Read(Finish(s, ctx).log).Broken?
  {
    hide Read, Reads, ReasoningTracks, MessageTracks, ToolsPlaced, AllFlushed, CloseMessages, StopReasoning;
    BeforeToolsSound(s, c, h);
    var s2, h2 := BeforeTools(s), Settle(h).(finished := true);
    var i :| i in h.calls && !FairCall(h, i);
    assert SameCall(s2.tools, h2.calls, h2.announced, i);
    assert !FairCall(h2, i);
    UnfairCallsBreak(s2, ctx, c, h2, Sorted(s2.tools.callIds.Keys), i);
  }

  /** One choice that is not fair, on a converter that was sound before it. */
  lemma {:induction false} UnfairChoiceBreaks(s: State, ctx: Context, c: int, h: Heard, ch: Choice)
    requires Sound(s, c, h) && !h.finished && ch.index == c && !FairChoice(h, s.custom, ch)
    ensures Read(HandleChoice(s, ctx, ch).log).Broken?
  {
    hide Sound, Read, HandleContent, HandleReasoning, HandleTools, Finish, FairToolsFrom, FairFinish;
    var s1, h1 := HandleContent(s, c, ch.content), HearContent(h, ch.content);
    var s2, h2 := HandleReasoning(s1, c, ch.reasoning), HearReasoning(h1, ch.reasoning);
    var s3, h3 := HandleTools(s2, c, ch.tools), HearTools(h2, ch.tools);
    var s4 := HandleChoice(s, ctx, ch);
    if ch.content != "" && h.sealed {
      SealedContentBreaks(s, c, h, ch.content);
      BrokenStays(s1.log, s4.log);
    } else {
      HandleContentSound(s, c, h, ch.content);
      HandleReasoningSound(s1, c, h1, ch.reasoning);
      if ch.tools.Some? && !FairToolsFrom(Seal(h2), s.custom, ch.tools.value, 0) {
        UnfairToolsChoice(s2, c, h2, ch.tools.value);
        BrokenStays(s3.log, s4.log);
      } else {
        HandleToolsSound(s2, c, h2, ch.tools);
        UnfairFinishBreaks(s3, ctx, c, h3);
      }
    }
  }

  lemma {:induction false} UnfairToolsChoice(s: State, c: int, h: Heard, ds: seq<ToolDelta>)
    requires Sound(s, c, h) && !h.finished && !FairToolsFrom(Seal(h), s.custom, ds, 0)
    ensures Read(HandleTools(s, c, Some(ds)).log).Broken?
  {
    hide Sound, Read, CloseMessage, StopReasoning, FairToolsFrom, HandleToolsFrom;
    StopReasoningSound(s, c, h);
    CloseMessageSound(StopReasoning(s), c, Settle(h), Seal(h));
    UnfairToolsBreak(CloseMessage(StopReasoning(s), c), c, Seal(h), ds, 0);
  }
}

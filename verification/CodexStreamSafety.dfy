/** Safety of the Chat Completions to Responses converter over whole single-choice streams. */
module CodexStreamSafety {
  import opened Options
  import opened ResponsesEvents
  import opened SortedKeys
  import opened OpenAIToCodex

  // ---------------------------------------------------------------- what a stream says

  datatype Call = Call(id: string, name: string, arguments: string)

  /** What the choices of a stream have said so far, without regard to any event:
      `closed` are the finished runs of reasoning and `thinking` the one under way, `sealed`
      holds once a tool_calls delta has come after some content, `announced` is the name each
      call had when its id and name were first both known. */
  datatype Heard = Heard(
    closed: seq<string>, thinking: Option<string>, text: string, sealed: bool,
    calls: map<int, Call>, announced: map<int, string>, finished: bool)

  const SILENCE: Heard := Heard([], None, "", false, map[], map[], false)

  function CallOf(calls: map<int, Call>, i: int): Call {
    if i in calls then calls[i] else Call("", "", "")
  }

  function Settle(h: Heard): Heard {
    if h.thinking.None? then h
    else h.(closed := h.closed + [h.thinking.value], thinking := None)
  }

  function HearContent(h: Heard, text: string): Heard {
    if text == "" then h else Settle(h).(text := h.text + text)
  }

  function HearReasoning(h: Heard, text: string): Heard {
    if text == "" then h
    else h.(thinking := Some((if h.thinking.Some? then h.thinking.value else "") + text))
  }

  function HearTool(h: Heard, i: int, d: ToolDelta): Heard {
    var was := CallOf(h.calls, i);
    var call := Call(if was.id == "" then d.id else was.id,
                     if d.name == "" then was.name else d.name,
                     was.arguments + d.arguments);
    h.(calls := h.calls[i := call],
       announced := if i in h.announced || call.id == "" || call.name == "" then h.announced
                    else h.announced[i := call.name])
  }

  function HearToolsFrom(h: Heard, ds: seq<ToolDelta>, k: nat): Heard
    requires k <= |ds|
    decreases |ds| - k
  {
    if k == |ds| then h else HearToolsFrom(HearTool(h, CallIndex(ds[k], k), ds[k]), ds, k + 1)
  }

  function Seal(h: Heard): Heard {
    Settle(h).(sealed := h.sealed || h.text != "")
  }

  function HearTools(h: Heard, tools: Option<seq<ToolDelta>>): Heard {
    if tools.None? then h else HearToolsFrom(Seal(h), tools.value, 0)
  }

  function HearFinish(h: Heard, reason: string): Heard {
    if reason == "" then h else Settle(h).(finished := true)
  }

  function Hear(h: Heard, ch: Choice): Heard {
    HearFinish(HearTools(HearReasoning(HearContent(h, ch.content), ch.reasoning), ch.tools), ch.finishReason)
  }

  // ---------------------------------------------------------------- fair streams

  /** A call announced as freeform is not renamed to an ordinary function while it has arguments. */
  predicate FairTool(h: Heard, custom: set<string>, i: int) {
    i in h.announced && h.announced[i] in custom && CallOf(h.calls, i).name !in custom ==>
        CallOf(h.calls, i).arguments == ""
  }

  predicate FairToolsFrom(h: Heard, custom: set<string>, ds: seq<ToolDelta>, k: nat)
    requires k <= |ds|
    decreases |ds| - k
  {
    k == |ds| ||
    (var h' := HearTool(h, CallIndex(ds[k], k), ds[k]);
     FairTool(h', custom, CallIndex(ds[k], k)) && FairToolsFrom(h', custom, ds, k + 1))
  }

  /** A call with an id has a name, the one it was announced with. */
  predicate FairCall(h: Heard, i: int) {
    i in h.calls && h.calls[i].id != "" ==> i in h.announced && h.announced[i] == h.calls[i].name
  }

  predicate FairFinish(h: Heard) {
    forall i :: i in h.calls ==> FairCall(h, i)
  }

  predicate FairChoice(h: Heard, custom: set<string>, ch: Choice) {
    var h1 := HearReasoning(HearContent(h, ch.content), ch.reasoning);
    && (ch.content != "" ==> !h.sealed)
    && (ch.tools.Some? ==> FairToolsFrom(Seal(h1), custom, ch.tools.value, 0))
    && (ch.finishReason != "" ==> FairFinish(HearTools(h1, ch.tools)))
  }

  // ---------------------------------------------------------------- the invariant

  function Segments(response: string, c: int, texts: seq<string>): seq<Item> {
    seq(|texts|, k requires 0 <= k < |texts| => ReasoningItem(RsId(response, c), texts[k]))
  }

  datatype Kind = Thought | Message | Tool

  function KindOf(live: Live): Kind {
    match live.item
    case ReasoningItem(_, _) => Thought
    case MessageItem(_, _) => Message
    case FunctionItem(_, _, _, _) => Tool
    case CustomItem(_, _, _, _) => Tool
  }

  /** The reasoning item under way, if any, is the one open reasoning item. */
  predicate ReasoningTracks(r: Reasoning, response: string, c: int, closed: seq<string>, thinking: Option<string>,
                            items: seq<Live>)
  {
    var id := RsId(response, c);
    && r.done == Segments(response, c, closed)
    && r.id == (if thinking.Some? then Some(id) else None)
    && r.buf == (if thinking.Some? then thinking.value else "")
    && (thinking.Some? ==> r.index < |items| && items[r.index] == Live(ReasoningItem(id, ""), r.buf, Streaming))
    && (forall k :: 0 <= k < |items| && KindOf(items[k]).Thought? && !items[k].stage.Closed? ==>
          thinking.Some? && k == r.index)
  }

  /** The message item, once there is content, is the only one of its kind. */
  predicate MessageTracks(m: Messages, response: string, c: int, text: string, closed: bool, items: seq<Live>) {
    && m.added == m.partAdded == m.index.Keys == (if text != "" then {c} else {})
    && m.done == (if closed then {c} else {})
    && (closed ==> text != "")
    && Get(m.text, c) == text
    && (text != "" ==>
          m.index[c] < |items|
          && items[m.index[c]] == Live(MessageItem(MsgId(response, c), ""), text, if closed then Closed else Streaming))
    && (forall k :: 0 <= k < |items| && KindOf(items[k]).Message? ==> text != "" && k == m.index[c])
  }

  predicate SameCall(t: Tools, calls: map<int, Call>, announced: map<int, string>, i: int) {
    var call := CallOf(calls, i);
    && Call(Get(t.callIds, i), Get(t.names, i), Get(t.args, i)) == call
    && (i in t.callIds ==> call.id != "")
    && (i in announced <==> call.id != "" && call.name != "")
  }

  ghost predicate SameCalls(t: Tools, calls: map<int, Call>, announced: map<int, string>) {
    && (forall i :: SameCall(t, calls, announced, i))
    && t.added == t.index.Keys == announced.Keys
    && t.sent.Keys <= t.added
    && t.done <= t.added
  }

  /** What stands at the output index of call `i`: the item announced under `name`, with the
      arguments sent so far. */
  predicate ToolPlace(t: Tools, custom: set<string>, name: string, i: int, items: seq<Live>) {
    var call, args := Get(t.callIds, i), Get(t.args, i);
    var sent, at := IndexOf(t.sent, i), IndexOf(t.index, i);
    && at < |items|
    && sent <= |args|
    && (if name in custom then
          && items[at] == Live(CustomItem(CtcId(call), call, name, ""), "", if i in t.done then Closed else PartFinal)
          && sent == 0
        else
          items[at] == Live(FunctionItem(FcId(call), call, name, ""), args[..sent],
                            if i in t.done then Closed else Streaming))
  }

  /** No arguments wait to be sent, except those of a call that now bears a freeform name. */
  predicate Flushed(t: Tools, custom: set<string>, i: int) {
    Get(t.names, i) in custom || IndexOf(t.sent, i) == |Get(t.args, i)|
  }

  predicate AllFlushed(t: Tools, custom: set<string>, announced: map<int, string>) {
    forall i :: i in announced ==> Flushed(t, custom, i)
  }

  predicate Owned(t: Tools, k: nat) {
    exists i :: i in t.index && t.index[i] == k
  }

  predicate ToolsPlaced(t: Tools, custom: set<string>, announced: map<int, string>, items: seq<Live>) {
    && (forall i :: i in announced ==> ToolPlace(t, custom, announced[i], i, items))
    && (forall i, j :: i in t.index && j in t.index && i != j ==> t.index[i] != t.index[j])
    && (forall k :: 0 <= k < |items| && KindOf(items[k]).Tool? ==> Owned(t, k))
  }

  ghost predicate Layout(s: State, c: int, h: Heard, items: seq<Live>) {
    && |items| == s.nextIndex
    && s.started && !s.completed
    && ReasoningTracks(s.reasoning, s.response, c, h.closed, h.thinking, items)
    && MessageTracks(s.messages, s.response, c, h.text, MessageClosed(h), items)
    && SameCalls(s.tools, h.calls, h.announced)
    && ToolsPlaced(s.tools, s.custom, h.announced, items)
    && AllFlushed(s.tools, s.custom, h.announced)
    && (h.sealed ==> h.text != "")
    && (!h.finished ==> s.tools.done == {})
  }

  predicate MessageClosed(h: Heard) {
    h.text != "" && (h.sealed || h.finished)
  }

  /** The events written so far follow the grammar, and the converter's maps say where every
      item that is still open stands. */
  ghost predicate Sound(s: State, c: int, h: Heard) {
    Reads(s, Items(s)) && Layout(s, c, h, Items(s))
  }

  function Items(s: State): seq<Live> {
    if Read(s.log).Grammar? then Read(s.log).items else []
  }

  predicate Reads(s: State, items: seq<Live>) {
    Read(s.log) == Grammar(s.seqNo, Running, items)
  }

  // ---------------------------------------------------------------- single events

  lemma {:induction false} EmitRead(s: State, b: Body)
    ensures Read(Emit(s, b).log) == Accept(Read(s.log), Event(s.seqNo + 1, b))
  {
    assert Emit(s, b).log[..|s.log|] == s.log;
  }

  lemma {:induction false} TextDoneReads(s: State, items: seq<Live>, channel: Channel, i: nat, live: Live)
    requires Reads(s, items) && i < |items| && items[i] == live && live.stage == Streaming
    requires channel == ChannelOf(live.item) && !channel.Arguments?
    ensures Reads(Emit(s, TextDone(channel, live.item.id, i, live.text)), items[i := live.(stage := TextFinal)])
  {
    EmitRead(s, TextDone(channel, live.item.id, i, live.text));
  }

  lemma {:induction false} PartDoneReads(s: State, items: seq<Live>, channel: Channel, i: nat, live: Live)
    requires Reads(s, items) && i < |items| && items[i] == live && live.stage == TextFinal
        && channel == ChannelOf(live.item)
    ensures Reads(Emit(s, PartDone(channel, live.item.id, i, live.text)), items[i := live.(stage := PartFinal)])
  {
    EmitRead(s, PartDone(channel, live.item.id, i, live.text));
  }

  lemma {:induction false} ItemDoneReads(s: State, items: seq<Live>, i: nat, live: Live, done: Item)
    requires Reads(s, items) && i < |items| && items[i] == live && live.stage == PartFinal && Finishes(live, done)
    ensures Reads(Emit(s, ItemDone(i, done)), items[i := live.(stage := Closed)])
  {
    EmitRead(s, ItemDone(i, done));
  }

  lemma {:induction false} EmitClosingReads(s: State, items: seq<Live>, channel: Channel, i: nat, live: Live,
                                            done: Item)
    requires Reads(s, items) && i < |items| && items[i] == live && live.stage == Streaming
    requires channel == ChannelOf(live.item) && !channel.Arguments? && Finishes(live, done)
    ensures Reads(EmitClosing(s, channel, live.item.id, i, live.text, done), items[i := live.(stage := Closed)])
  {
    hide Reads;
    var id, text := live.item.id, live.text;
    var s1 := Emit(s, TextDone(channel, id, i, text));
    var s2 := Emit(s1, PartDone(channel, id, i, text));
    var live1, live2 := live.(stage := TextFinal), live.(stage := PartFinal);
    TextDoneReads(s, items, channel, i, live);
    PartDoneReads(s1, items[i := live1], channel, i, live1);
    ItemDoneReads(s2, items[i := live1][i := live2], i, live2, done);
    assert items[i := live1][i := live2][i := live.(stage := Closed)] == items[i := live.(stage := Closed)];
  }

  lemma {:induction false} AddReads(s: State, items: seq<Live>, item: Item)
    requires Reads(s, items) && Blank(item)
    ensures Reads(Emit(s, ItemAdded(|items|, item)), items + [Live(item, "", FirstStage(item))])
  {
    EmitRead(s, ItemAdded(|items|, item));
  }

  lemma {:induction false} PartReads(s: State, items: seq<Live>, i: nat, live: Live)
    requires Reads(s, items) && i < |items| && items[i] == live && live.stage == Announced
    ensures Reads(Emit(s, PartAdded(ChannelOf(live.item), live.item.id, i)), items[i := live.(stage := Streaming)])
  {
    EmitRead(s, PartAdded(ChannelOf(live.item), live.item.id, i));
  }

  lemma {:induction false} DeltaReads(s: State, items: seq<Live>, i: nat, live: Live, delta: string)
    requires Reads(s, items) && i < |items| && items[i] == live && live.stage == Streaming
    ensures Reads(Emit(s, Delta(ChannelOf(live.item), live.item.id, i, delta)),
                  items[i := live.(text := live.text + delta)])
  {
    EmitRead(s, Delta(ChannelOf(live.item), live.item.id, i, delta));
  }

  // ---------------------------------------------------------------- each step keeps it

  /** All items of the kind are the same, at the same indices. */
  predicate SameItems(kind: Kind, items: seq<Live>, items': seq<Live>) {
    && |items| <= |items'|
    && (forall k :: 0 <= k < |items| && (KindOf(items[k]) == kind || KindOf(items'[k]) == kind) ==>
        items'[k] == items[k])
    && (forall k :: |items| <= k < |items'| ==> KindOf(items'[k]) != kind)
  }

  lemma {:induction false} ToolsUntouched(t: Tools, custom: set<string>, announced: map<int, string>,
                                          items: seq<Live>, items': seq<Live>)
    requires ToolsPlaced(t, custom, announced, items) && SameItems(Tool, items, items')
    ensures ToolsPlaced(t, custom, announced, items')
  {
    forall i | i in announced ensures ToolPlace(t, custom, announced[i], i, items') {
      assert ToolPlace(t, custom, announced[i], i, items);
    }
  }

  lemma {:induction false} ReasoningUntouched(r: Reasoning, response: string, c: int, closed: seq<string>,
                                              thinking: Option<string>, items: seq<Live>, items': seq<Live>)
    requires ReasoningTracks(r, response, c, closed, thinking, items) && SameItems(Thought, items, items')
    ensures ReasoningTracks(r, response, c, closed, thinking, items')
  {
  }

  lemma {:induction false} MessageUntouched(m: Messages, response: string, c: int, text: string, closed: bool,
                         items: seq<Live>, items': seq<Live>)
    requires MessageTracks(m, response, c, text, closed, items) && SameItems(Message, items, items')
    ensures MessageTracks(m, response, c, text, closed, items')
  {
  }

  // ---------------------------------------------------------------- reasoning

  lemma {:induction false} StopReasoningSound(s: State, c: int, h: Heard)
    requires Sound(s, c, h)
    ensures Sound(StopReasoning(s), c, Settle(h))
  {
    hide Read, Accept, MessageTracks, ToolPlace, SameCalls, ToolsPlaced, AllFlushed;
    if h.thinking.Some? {
      var r, items := s.reasoning, Items(s);
      var items' := items[r.index := items[r.index].(stage := Closed)];
      EmitClosingReads(s, items, SummaryText, r.index, items[r.index], ReasoningItem(r.id.value, r.buf));
      ToolsUntouched(s.tools, s.custom, h.announced, items, items');
      MessageUntouched(s.messages, s.response, c, h.text, MessageClosed(h), items, items');
    }
  }

  function ThoughtItems(r: Reasoning, response: string, c: int, items: seq<Live>, text: string): seq<Live> {
    if r.id.None? then items + [Live(ReasoningItem(RsId(response, c), ""), text, Streaming)]
    else if r.index < |items| then items[r.index := items[r.index].(text := items[r.index].text + text)]
    else items
  }

  lemma {:induction false} ThinkReads(s: State, c: int, h: Heard, items: seq<Live>, text: string)
    requires Reads(s, items) && |items| == s.nextIndex
    requires ReasoningTracks(s.reasoning, s.response, c, h.closed, h.thinking, items)
    ensures Reads(Think(OpenReasoning(s, c), text), ThoughtItems(s.reasoning, s.response, c, items, text))
  {
    hide Read, Accept;
    var n, id, s1 := |items|, RsId(s.response, c), OpenReasoning(s, c);
    var l0, l1 := Live(ReasoningItem(id, ""), "", Announced), Live(ReasoningItem(id, ""), "", Streaming);
    if h.thinking.None? {
      var t := s.(reasoning := s.reasoning.(id := Some(id), index := n), nextIndex := n + 1);
      AddReads(t, items, ReasoningItem(id, ""));
      PartReads(Emit(t, ItemAdded(n, ReasoningItem(id, ""))), items + [l0], n, l0);
      assert (items + [l0])[n := l1] == items + [l1];
      DeltaReads(s1, items + [l1], n, l1, text);
      assert "" + text == text;
      assert (items + [l1])[n := l1.(text := text)] == items + [l1.(text := text)];
    } else {
      DeltaReads(s, items, s.reasoning.index, items[s.reasoning.index], text);
    }
  }

  lemma {:induction false} ThinkTracks(s: State, c: int, h: Heard, items: seq<Live>, text: string)
    requires ReasoningTracks(s.reasoning, s.response, c, h.closed, h.thinking, items)
    requires |items| == s.nextIndex && text != ""
    ensures var s', h' := Think(OpenReasoning(s, c), text), HearReasoning(h, text);
            var items' := ThoughtItems(s.reasoning, s.response, c, items, text);
            ReasoningTracks(s'.reasoning, s.response, c, h'.closed, h'.thinking, items') && |items'| == s'.nextIndex
            && SameItems(Tool, items, items') && SameItems(Message, items, items')
  {
    hide Read, Accept;
    var r := s.reasoning;
    if h.thinking.None? {
      assert "" + text == text;
      assert Think(OpenReasoning(s, c), text).reasoning == Reasoning(Some(RsId(s.response, c)), |items|, text, r.done);
    } else {
      assert Think(OpenReasoning(s, c), text).reasoning == r.(buf := r.buf + text);
    }
  }

  lemma {:induction false} HandleReasoningSound(s: State, c: int, h: Heard, text: string)
    requires Sound(s, c, h) && !h.finished
    ensures Sound(HandleReasoning(s, c, text), c, HearReasoning(h, text))
  {
    hide Read, Accept, ReasoningTracks, MessageTracks, ToolPlace, SameCalls, ToolsPlaced, AllFlushed;
    if text != "" {
      var items := Items(s);
      var items' := ThoughtItems(s.reasoning, s.response, c, items, text);
      ThinkReads(s, c, h, items, text);
      ThinkTracks(s, c, h, items, text);
      ToolsUntouched(s.tools, s.custom, h.announced, items, items');
      MessageUntouched(s.messages, s.response, c, h.text, MessageClosed(h), items, items');
    }
  }

  // ---------------------------------------------------------------- content

  /** The message item after more content: a first item, or more text in the one there is. */
  function SaidItems(m: Messages, response: string, c: int, items: seq<Live>, text: string): seq<Live> {
    if c !in m.index then items + [Live(MessageItem(MsgId(response, c), ""), text, Streaming)]
    else if m.index[c] < |items| then items[m.index[c] := items[m.index[c]].(text := items[m.index[c]].text + text)]
    else items
  }

  lemma {:induction false} SayReads(s: State, c: int, said: string, items: seq<Live>, text: string)
    requires Reads(s, items) && |items| == s.nextIndex
    requires MessageTracks(s.messages, s.response, c, said, false, items)
    ensures Reads(Say(AddMessagePart(AnnounceMessage(s, c), c), c, text),
                  SaidItems(s.messages, s.response, c, items, text))
  {
    hide Read, Accept;
    var n, id := |items|, MsgId(s.response, c);
    if said != "" {
      var i := s.messages.index[c];
      DeltaReads(s, items, i, items[i], text);
    } else {
      var l0, l1 := Live(MessageItem(id, ""), "", Announced), Live(MessageItem(id, ""), "", Streaming);
      AddReads(AssignMsgIndex(s, c), items, MessageItem(id, ""));
      var s1 := AnnounceMessage(s, c);
      PartReads(s1, items + [l0], n, l0);
      var s2 := AddMessagePart(s1, c);
      assert (items + [l0])[n := l1] == items + [l1];
      DeltaReads(s2, items + [l1], n, l1, text);
      assert "" + text == text;
      assert (items + [l1])[n := l1.(text := text)] == items + [l1.(text := text)];
    }
  }

  lemma {:induction false} SaidElsewhere(s: State, c: int, said: string, items: seq<Live>, text: string)
    requires MessageTracks(s.messages, s.response, c, said, false, items)
    ensures var items' := SaidItems(s.messages, s.response, c, items, text);
            SameItems(Tool, items, items') && SameItems(Thought, items, items')
  {
  }

  lemma {:induction false} SayTracks(s: State, c: int, said: string, items: seq<Live>, text: string)
    requires MessageTracks(s.messages, s.response, c, said, false, items) && |items| == s.nextIndex && text != ""
    ensures var s' := Say(AddMessagePart(AnnounceMessage(s, c), c), c, text);
            var items' := SaidItems(s.messages, s.response, c, items, text);
            MessageTracks(s'.messages, s.response, c, said + text, false, items') && |items'| == s'.nextIndex
            && SameItems(Tool, items, items') && SameItems(Thought, items, items')
  {
    SaidElsewhere(s, c, said, items, text);
    SaidTables(s, c, said, text);
    hide SameItems, Say, AddMessagePart, AnnounceMessage;
  }

  lemma {:induction false} SaidTables(s: State, c: int, said: string, text: string)
    requires (c in s.messages.added <==> said != "")
        && s.messages.added == s.messages.partAdded == s.messages.index.Keys
    requires Get(s.messages.text, c) == said
    ensures var m, s' := s.messages, Say(AddMessagePart(AnnounceMessage(s, c), c), c, text);
            if said == "" then
              && s'.messages == Messages(m.text[c := text], m.added + {c}, m.partAdded + {c}, m.done,
                  m.index[c := s.nextIndex])
              && s'.nextIndex == s.nextIndex + 1
            else s'.messages == m.(text := m.text[c := said + text]) && s'.nextIndex == s.nextIndex
  {
    assert "" + text == text;
  }

  lemma {:induction false} HandleContentSound(s0: State, c: int, h0: Heard, text: string)
    requires Sound(s0, c, h0) && !h0.finished && (text != "" ==> !h0.sealed)
    ensures Sound(HandleContent(s0, c, text), c, HearContent(h0, text))
  {
    hide Read, Accept, ReasoningTracks, MessageTracks, ToolPlace, SameCalls, ToolsPlaced, AllFlushed,
         StopReasoning, Say, AddMessagePart, AnnounceMessage;
    if text != "" {
      StopReasoningSound(s0, c, h0);
      var s, h := StopReasoning(s0), Settle(h0);
      var items := Items(s);
      var items' := SaidItems(s.messages, s.response, c, items, text);
      SayReads(s, c, h.text, items, text);
      SayTracks(s, c, h.text, items, text);
      ToolsUntouched(s.tools, s.custom, h.announced, items, items');
      ReasoningUntouched(s.reasoning, s.response, c, h.closed, h.thinking, items, items');
    }
  }

  lemma {:induction false} CloseMessageSound(s: State, c: int, h: Heard, h': Heard)
    requires Sound(s, c, h) && !h.finished
    requires h' == h.(sealed := h.sealed || h.text != "") || h' == h.(finished := true)
    ensures Sound(CloseMessage(s, c), c, h')
  {
    hide Read, Accept, ReasoningTracks, ToolPlace, SameCalls, ToolsPlaced, AllFlushed;
    var items := Items(s);
    if h.text != "" && !MessageClosed(h) {
      var i := s.messages.index[c];
      var items' := items[i := items[i].(stage := Closed)];
      EmitClosingReads(s, items, OutputText, i, items[i], MessageItem(MsgId(s.response, c), h.text));
      ToolsUntouched(s.tools, s.custom, h.announced, items, items');
      ReasoningUntouched(s.reasoning, s.response, c, h.closed, h.thinking, items, items');
    }
  }

  // ---------------------------------------------------------------- tool calls

  lemma {:induction false} NoteToolPlaced(t: Tools, custom: set<string>, announced: map<int, string>,
                                          items: seq<Live>, i: int, d: ToolDelta)
    requires ToolsPlaced(t, custom, announced, items) && (i in announced ==> Get(t.callIds, i) != "")
    ensures ToolsPlaced(NoteTool(t, i, d), custom, announced, items)
  {
    forall j | j in announced ensures ToolPlace(NoteTool(t, i, d), custom, announced[j], j, items) {
      assert ToolPlace(t, custom, announced[j], j, items);
    }
  }

  lemma {:induction false} BufferPlaced(t: Tools, custom: set<string>, announced: map<int, string>, items: seq<Live>,
                                        i: int, args: string)
    requires ToolsPlaced(t, custom, announced, items)
    ensures ToolsPlaced(BufferArguments(t, i, args), custom, announced, items)
  {
    var t' := BufferArguments(t, i, args);
    forall j | j in announced ensures ToolPlace(t', custom, announced[j], j, items) {
      assert ToolPlace(t, custom, announced[j], j, items);
      var sent := IndexOf(t.sent, j);
      assert Get(t'.args, j)[..sent] == Get(t.args, j)[..sent];
    }
  }

  /** Announcing a call that was not announced before. */
  lemma {:induction false} AnnounceToolPlaced(s: State, announced: map<int, string>, items: seq<Live>, i: int)
    requires Reads(s, items) && |items| == s.nextIndex && ToolsPlaced(s.tools, s.custom, announced, items)
    requires s.tools.index.Keys == s.tools.added == announced.Keys && s.tools.sent.Keys <= s.tools.added
    requires i !in announced && Get(s.tools.callIds, i) != "" && Get(s.tools.names, i) != "" && i !in s.tools.done
    ensures var s', item := AnnounceTool(s, i), AnnouncedItem(s, i);
            var items' := items + [Live(item, "", FirstStage(item))];
            Reads(s', items') && |items'| == s'.nextIndex
            && ToolsPlaced(s'.tools, s.custom, announced[i := Get(s.tools.names, i)], items')
            && SameItems(Thought, items, items') && SameItems(Message, items, items')
  {
    hide Read, Accept;
    var s', item, name := AnnounceTool(s, i), AnnouncedItem(s, i), Get(s.tools.names, i);
    var items', announced' := items + [Live(item, "", FirstStage(item))], announced[i := name];
    AddReads(AssignFuncIndex(s.(tools := s.tools.(added := s.tools.added + {i})), i), items, item);
    assert s'.tools == s.tools.(added := s.tools.added + {i}, index := s.tools.index[i := |items|]);
    forall j | j in announced' ensures ToolPlace(s'.tools, s.custom, announced'[j], j, items') {
      if j != i {
        assert ToolPlace(s.tools, s.custom, announced[j], j, items);
      } else {
        assert Get(s.tools.args, i)[..0] == "";
      }
    }
    forall j, k | j in s'.tools.index && k in s'.tools.index && j != k ensures s'.tools.index[j] != s'.tools.index[k] {
      if j != i { assert ToolPlace(s.tools, s.custom, announced[j], j, items); }
      if k != i { assert ToolPlace(s.tools, s.custom, announced[k], k, items); }
    }
    forall k | 0 <= k < |items'| && KindOf(items'[k]).Tool? ensures Owned(s'.tools, k) {
      if k < |items| {
        assert Owned(s.tools, k);
        var j :| j in s.tools.index && s.tools.index[j] == k;
        assert s'.tools.index[j] == k;
      } else {
        assert s'.tools.index[i] == k;
      }
    }
  }

  lemma {:induction false} SentPlace(t: Tools, custom: set<string>, name: string, other: string, items: seq<Live>,
                                     i: int, j: int)
    requires ToolPlace(t, custom, name, i, items) && name !in custom && i in t.index
    requires ToolPlace(t, custom, other, j, items) && j in t.index && (i == j ==> name == other)
    requires i != j ==> t.index[i] != t.index[j]
    ensures var t', at := t.(sent := t.sent[i := |Get(t.args, i)|]), t.index[i];
            ToolPlace(t', custom, other, j, items[at := items[at].(text := Get(t.args, i))])
  {
    assert Get(t.args, i)[..|Get(t.args, i)|] == Get(t.args, i);
  }

  /** Where the calls stand once the arguments of call `i` are all sent. */
  lemma {:induction false} SentPlaced(t: Tools, custom: set<string>, announced: map<int, string>, items: seq<Live>,
                                      i: int)
    requires ToolsPlaced(t, custom, announced, items) && t.index.Keys == announced.Keys
    requires i in announced && announced[i] !in custom
    ensures t.index[i] < |items|
    ensures var t', at := t.(sent := t.sent[i := |Get(t.args, i)|]), t.index[i];
            var items' := items[at := items[at].(text := Get(t.args, i))];
            ToolsPlaced(t', custom, announced, items') && SameItems(Thought, items, items')
                && SameItems(Message, items, items')
  {
    assert ToolPlace(t, custom, announced[i], i, items);
    hide ToolPlace;
    var t', at := t.(sent := t.sent[i := |Get(t.args, i)|]), t.index[i];
    var items' := items[at := items[at].(text := Get(t.args, i))];
    forall j | j in announced ensures ToolPlace(t', custom, announced[j], j, items') {
      assert ToolPlace(t, custom, announced[j], j, items) && ToolPlace(t, custom, announced[i], i, items);
      SentPlace(t, custom, announced[i], announced[j], items, i, j);
    }
    forall k | 0 <= k < |items'| && KindOf(items'[k]).Tool? ensures Owned(t', k) {
      assert KindOf(items[k]).Tool? && Owned(t, k);
    }
  }

  /** Sending the rest of the arguments of an announced function call. */
  lemma {:induction false} FlushPlaced(s: State, announced: map<int, string>, items: seq<Live>, i: int)
    requires Reads(s, items) && |items| == s.nextIndex && ToolsPlaced(s.tools, s.custom, announced, items)
    requires s.tools.index.Keys == s.tools.added == announced.Keys && i in announced && s.tools.done == {}
    requires announced[i] !in s.custom && !IsCustom(s, i) && Get(s.tools.callIds, i) != ""
    requires IndexOf(s.tools.sent, i) < |Get(s.tools.args, i)|
    ensures var s', at := FlushArguments(s, i), s.tools.index[i];
            var items' := items[at := items[at].(text := Get(s.tools.args, i))];
            Reads(s', items') && ToolsPlaced(s'.tools, s.custom, announced, items')
            && s'.tools == s.tools.(sent := s.tools.sent[i := |Get(s.tools.args, i)|])
            && SameItems(Thought, items, items') && SameItems(Message, items, items')
  {
    hide Read, Accept, ToolsPlaced, SameItems;
    SentPlaced(s.tools, s.custom, announced, items, i);
    var at, full, sent := s.tools.index[i], Get(s.tools.args, i), IndexOf(s.tools.sent, i);
    assert ToolPlace(s.tools, s.custom, announced[i], i, items) by { PlaceOf(s.tools, s.custom, announced, items, i); }
    DeltaReads(s, items, at, items[at], full[sent..]);
    assert full[..sent] + full[sent..] == full;
  }

  predicate Becomes(t: Tools, i: int) {
    i !in t.added && Get(t.callIds, i) != "" && Get(t.names, i) != ""
  }

  lemma {:induction false} AnnounceShape(s: State, i: int)
    ensures var s' := AnnounceTool(s, i);
            && s'.tools.names == s.tools.names && s'.tools.done == s.tools.done && s'.tools.callIds == s.tools.callIds
            && s'.tools.args == s.tools.args && s'.tools.sent == s.tools.sent
            && s'.tools.added == s.tools.added + (if Becomes(s.tools, i) then {i} else {})
            && s'.tools.index.Keys == s.tools.index.Keys + (if Becomes(s.tools, i) then {i} else {})
  {
    hide Read, AnnouncedItem;
  }

  lemma {:induction false} FlushShape(s: State, i: int)
    requires s.tools.added <= s.tools.index.Keys
    ensures var s' := FlushArguments(s, i);
            && s'.tools == s.tools.(sent := s'.tools.sent)
            && s'.tools.sent.Keys <= s.tools.sent.Keys + (if i in s.tools.added then {i} else {})
            && (forall j :: j != i ==> IndexOf(s'.tools.sent, j) == IndexOf(s.tools.sent, j))
  {
    hide Read;
  }

  /** What one tool delta does to the buffers and tables, whatever it emits. */
  ghost predicate Shape(t: Tools, t': Tools, i: int, d: ToolDelta) {
    var t1 := NoteTool(t, i, d);
    && t'.names == t1.names && t'.callIds == t1.callIds && t'.args == BufferArguments(t1, i, d.arguments).args
    && t'.added == t'.index.Keys == t.added + (if Becomes(t1, i) then {i} else {})
    && t'.sent.Keys <= t'.added && t'.done == t.done
    && (forall j :: j != i ==> IndexOf(t'.sent, j) == IndexOf(t.sent, j))
  }

  lemma {:induction false} HandleToolShape(s: State, i: int, d: ToolDelta)
    requires s.tools.added == s.tools.index.Keys && s.tools.sent.Keys <= s.tools.added
    ensures Shape(s.tools, HandleTool(s, i, d).tools, i, d)
  {
    hide Read, AnnounceTool, FlushArguments, AnnouncedItem;
    var s1 := s.(tools := NoteTool(s.tools, i, d));
    AnnounceShape(s1, i);
    var s2 := AnnounceTool(s1, i);
    FlushShape(s2.(tools := BufferArguments(s2.tools, i, d.arguments)), i);
  }

  lemma {:induction false} OtherCallAfter(t: Tools, t': Tools, h: Heard, i: int, d: ToolDelta, j: int)
    requires SameCall(t, h.calls, h.announced, j) && Shape(t, t', i, d) && j != i
    ensures SameCall(t', HearTool(h, i, d).calls, HearTool(h, i, d).announced, j)
  {
    hide Becomes;
  }

  lemma {:induction false} NoteTables(t: Tools, i: int, d: ToolDelta)
    ensures var t1 := NoteTool(t, i, d);
            && t1.args == t.args
            && Get(t1.names, i) == (if d.name == "" then Get(t.names, i) else d.name)
            && Get(t1.callIds, i) == (if Get(t.callIds, i) == "" then d.id else Get(t.callIds, i))
            && (i in t1.callIds ==> i in t.callIds || d.id != "")
  {
  }

  lemma {:induction false} HeardCall(h: Heard, i: int, d: ToolDelta)
    ensures var was, h' := CallOf(h.calls, i), HearTool(h, i, d); var call := CallOf(h'.calls, i);
            && call.id == (if was.id == "" then d.id else was.id)
                && call.name == (if d.name == "" then was.name else d.name)
            && call.arguments == was.arguments + d.arguments
            && (i in h'.announced <==> i in h.announced || (call.id != "" && call.name != ""))
  {
  }

  lemma {:induction false} ThisCallAfter(t: Tools, t': Tools, h: Heard, i: int, d: ToolDelta)
    requires SameCall(t, h.calls, h.announced, i) && Shape(t, t', i, d)
    ensures SameCall(t', HearTool(h, i, d).calls, HearTool(h, i, d).announced, i)
  {
    hide Becomes, NoteTool, HearTool, CallOf;
    NoteTables(t, i, d);
    HeardCall(h, i, d);
    assert Get(t'.args, i) == Get(t.args, i) + d.arguments;
  }

  lemma {:induction false} SameCallsAfter(t: Tools, t': Tools, h: Heard, i: int, d: ToolDelta)
    requires SameCalls(t, h.calls, h.announced) && Shape(t, t', i, d)
    ensures SameCalls(t', HearTool(h, i, d).calls, HearTool(h, i, d).announced)
  {
    NoteFacts(t, h, i, d);
    hide NoteTool, HearTool, SameCall, BufferArguments;
    var h' := HearTool(h, i, d);
    forall j ensures SameCall(t', h'.calls, h'.announced, j) {
      assert SameCall(t, h.calls, h.announced, j);
      if j == i {
        ThisCallAfter(t, t', h, i, d);
      } else {
        OtherCallAfter(t, t', h, i, d, j);
      }
    }
  }

  lemma {:induction false} FlushEffect(s: State, announced: map<int, string>, items: seq<Live>, i: int)
    returns (items': seq<Live>)
    requires Reads(s, items) && |items| == s.nextIndex && ToolsPlaced(s.tools, s.custom, announced, items)
    requires s.tools.index.Keys == s.tools.added == announced.Keys && s.tools.done == {}
    requires i in announced ==> Get(s.tools.callIds, i) != ""
    requires i in announced && announced[i] in s.custom && !IsCustom(s, i) ==> Get(s.tools.args, i) == ""
    ensures var s' := FlushArguments(s, i);
            Reads(s', items') && |items'| == s'.nextIndex && ToolsPlaced(s'.tools, s.custom, announced, items')
            && (i in announced ==> Flushed(s'.tools, s.custom, i))
            && SameItems(Thought, items, items') && SameItems(Message, items, items')
  {
    hide Read, Accept;
    items' := items;
    if i in announced {
      assert ToolPlace(s.tools, s.custom, announced[i], i, items);
      if !IsCustom(s, i) && IndexOf(s.tools.sent, i) < |Get(s.tools.args, i)| {
        FlushPlaced(s, announced, items, i);
        items' := items[s.tools.index[i] := items[s.tools.index[i]].(text := Get(s.tools.args, i))];
      }
    }
  }

  lemma {:induction false} AnnounceEffect(s: State, announced: map<int, string>, items: seq<Live>, i: int)
    returns (items': seq<Live>)
    requires Reads(s, items) && |items| == s.nextIndex && ToolsPlaced(s.tools, s.custom, announced, items)
    requires s.tools.index.Keys == s.tools.added == announced.Keys && s.tools.sent.Keys <= s.tools.added
    requires s.tools.done == {}
    ensures var s' := AnnounceTool(s, i);
            var announced' := if Becomes(s.tools, i) then announced[i := Get(s.tools.names, i)] else announced;
            Reads(s', items') && |items'| == s'.nextIndex && ToolsPlaced(s'.tools, s.custom, announced', items')
            && SameItems(Thought, items, items') && SameItems(Message, items, items')
  {
    hide Read, Accept, ToolsPlaced, AnnouncedItem;
    items' := items;
    if Becomes(s.tools, i) {
      AnnounceToolPlaced(s, announced, items, i);
      items' := items + [Live(AnnouncedItem(s, i), "", FirstStage(AnnouncedItem(s, i)))];
    }
  }

  lemma {:induction false} NoteFacts(t: Tools, h: Heard, i: int, d: ToolDelta)
    requires SameCalls(t, h.calls, h.announced)
    ensures var t1, h' := NoteTool(t, i, d), HearTool(h, i, d);
            && t1 == t.(names := t1.names, callIds := t1.callIds)
            && h'.announced == (if Becomes(t1, i) then h.announced[i := Get(t1.names, i)] else h.announced)
            && Get(t1.names, i) == CallOf(h'.calls, i).name
            && Get(BufferArguments(t1, i, d.arguments).args, i) == CallOf(h'.calls, i).arguments
            && (i in h.announced ==> Get(t.callIds, i) != "") && (i in h'.announced ==> Get(t1.callIds, i) != "")
  {
    assert SameCall(t, h.calls, h.announced, i);
  }

  lemma {:induction false} HandleToolItems(s: State, h: Heard, items: seq<Live>, i: int, d: ToolDelta)
      returns (items': seq<Live>)
    requires Reads(s, items) && |items| == s.nextIndex && ToolsPlaced(s.tools, s.custom, h.announced, items)
    requires SameCalls(s.tools, h.calls, h.announced) && s.tools.done == {}
    requires FairTool(HearTool(h, i, d), s.custom, i)
    ensures var s', h' := HandleTool(s, i, d), HearTool(h, i, d);
            Reads(s', items') && |items'| == s'.nextIndex && ToolsPlaced(s'.tools, s.custom, h'.announced, items')
            && (i in h'.announced ==> Flushed(s'.tools, s.custom, i))
            && SameItems(Thought, items, items') && SameItems(Message, items, items')
  {
    hide Read, Accept, ToolsPlaced, AnnounceTool, FlushArguments, ToolPlace, NoteTool, HearTool, Flushed, SameCall;
    var h' := HearTool(h, i, d);
    NoteFacts(s.tools, h, i, d);
    NoteToolPlaced(s.tools, s.custom, h.announced, items, i, d);
    var s1 := s.(tools := NoteTool(s.tools, i, d));
    var items2 := AnnounceEffect(s1, h.announced, items, i);
    AnnounceShape(s1, i);
    var s2 := AnnounceTool(s1, i);
    BufferPlaced(s2.tools, s.custom, h'.announced, items2, i, d.arguments);
    var s3 := s2.(tools := BufferArguments(s2.tools, i, d.arguments));
    items' := FlushEffect(s3, h'.announced, items2, i);
  }

  lemma {:induction false} HandleToolSound(s: State, c: int, h: Heard, i: int, d: ToolDelta)
    requires Sound(s, c, h) && !h.finished && FairTool(HearTool(h, i, d), s.custom, i)
    ensures Sound(HandleTool(s, i, d), c, HearTool(h, i, d)) && HandleTool(s, i, d).custom == s.custom
  {
    hide Read, Accept, ReasoningTracks, MessageTracks, ToolsPlaced, HandleTool, FairTool;
    var items, h', s' := Items(s), HearTool(h, i, d), HandleTool(s, i, d);
    HandleToolShape(s, i, d);
    SameCallsAfter(s.tools, s'.tools, h, i, d);
    var items' := HandleToolItems(s, h, items, i, d);
    MessageUntouched(s.messages, s.response, c, h.text, MessageClosed(h), items, items');
    ReasoningUntouched(s.reasoning, s.response, c, h.closed, h.thinking, items, items');
    forall j | j in h'.announced ensures Flushed(s'.tools, s.custom, j) {
      if j != i {
        assert Flushed(s.tools, s.custom, j);
      }
    }
  }

  lemma {:induction false} HandleToolsFromSound(s: State, c: int, h: Heard, ds: seq<ToolDelta>, k: nat)
    requires Sound(s, c, h) && !h.finished && k <= |ds| && FairToolsFrom(h, s.custom, ds, k)
    ensures Sound(HandleToolsFrom(s, ds, k), c, HearToolsFrom(h, ds, k))
    ensures HandleToolsFrom(s, ds, k).custom == s.custom && !HearToolsFrom(h, ds, k).finished
    decreases |ds| - k
  {
    hide Sound, HandleTool, FairTool;
    if k < |ds| {
      var i := CallIndex(ds[k], k);
      HandleToolSound(s, c, h, i, ds[k]);
      HandleToolsFromSound(HandleTool(s, i, ds[k]), c, HearTool(h, i, ds[k]), ds, k + 1);
    }
  }

  lemma {:induction false} HandleToolsSound(s: State, c: int, h: Heard, tools: Option<seq<ToolDelta>>)
    requires Sound(s, c, h) && !h.finished
    requires tools.Some? ==> FairToolsFrom(Seal(h), s.custom, tools.value, 0)
    ensures Sound(HandleTools(s, c, tools), c, HearTools(h, tools)) && !HearTools(h, tools).finished
    ensures HandleTools(s, c, tools).custom == s.custom
  {
    hide Sound, CloseMessage, StopReasoning;
    if tools.Some? {
      StopReasoningSound(s, c, h);
      CloseMessageSound(StopReasoning(s), c, Settle(h), Seal(h));
      HandleToolsFromSound(CloseMessage(StopReasoning(s), c), c, Seal(h), tools.value, 0);
    }
  }

  // ---------------------------------------------------------------- the finish

  lemma {:induction false} ArgsDoneReads(s: State, items: seq<Live>, at: nat, live: Live, name: string)
    requires Reads(s, items) && at < |items| && items[at] == live && live.stage == Streaming
    requires live.item.FunctionItem? && live.item.arguments == "" && live.item.name == name
    ensures Reads(Emit(Emit(s, TextDone(Arguments, live.item.id, at, FinalArguments(live.text))),
                       ItemDone(at, FunctionItem(live.item.id, live.item.callId, name, FinalArguments(live.text)))),
                  items[at := live.(stage := Closed)])
  {
    var b := TextDone(Arguments, live.item.id, at, FinalArguments(live.text));
    EmitRead(s, b);
    assert Reads(Emit(s, b), items[at := live.(stage := PartFinal)]);
    EmitRead(Emit(s, b), ItemDone(at, FunctionItem(live.item.id, live.item.callId, name, FinalArguments(live.text))));
  }

  lemma {:induction false} EmitFinalReads(s: State, ctx: Context, i: int, items: seq<Live>, at: nat)
    requires Reads(s, items) && at < |items|
    requires var call, name, args := Get(s.tools.callIds, i), Get(s.tools.names, i), Get(s.tools.args, i);
             items[at] == (if name in s.custom then Live(CustomItem(CtcId(call), call, name, ""), "", PartFinal)
                           else Live(FunctionItem(FcId(call), call, name, ""), args, Streaming))
    ensures Reads(EmitFinal(s, ctx, i, at), items[at := items[at].(stage := Closed)])
  {
    var call, name := Get(s.tools.callIds, i), Get(s.tools.names, i);
    if IsCustom(s, i) {
      EmitRead(s, ItemDone(at, CustomItem(CtcId(call), call, name, ctx.unwrap(FinalArguments(Get(s.tools.args, i))))));
    } else {
      hide Read, Accept;
      ArgsDoneReads(s, items, at, items[at], name);
    }
  }

  lemma {:induction false} FinishToolPlaced(t: Tools, custom: set<string>, announced: map<int, string>,
                                            items: seq<Live>, i: int)
    requires ToolsPlaced(t, custom, announced, items) && i in announced && t.index.Keys == announced.Keys
    ensures var at := IndexOf(t.index, i);
            at < |items| && var items' := items[at := items[at].(stage := Closed)];
            ToolsPlaced(t.(done := t.done + {i}), custom, announced, items')
            && SameItems(Thought, items, items') && SameItems(Message, items, items')
  {
    assert ToolPlace(t, custom, announced[i], i, items);
    var at := IndexOf(t.index, i);
    var items' := items[at := items[at].(stage := Closed)];
    forall j | j in announced ensures ToolPlace(t.(done := t.done + {i}), custom, announced[j], j, items') {
      assert ToolPlace(t, custom, announced[j], j, items);
    }
  }

  lemma {:induction false} FinishToolSound(s: State, ctx: Context, c: int, h: Heard, i: int)
    requires Sound(s, c, h) && h.finished && FairCall(h, i) && i in s.tools.callIds
    ensures var s' := FinishTool(s, ctx, i);
            Sound(s', c, h) && s'.custom == s.custom && s'.tools == s.tools.(done := s.tools.done + {i})
  {
    hide Read, Accept, ReasoningTracks, MessageTracks, ToolsPlaced, EmitFinal;
    var items := Items(s);
    assert SameCall(s.tools, h.calls, h.announced, i);
    assert i in h.calls && h.announced[i] == Get(s.tools.names, i);
    if i !in s.tools.done {
      var at := s.tools.index[i];
      FinishToolPlaced(s.tools, s.custom, h.announced, items, i);
      assert ToolPlace(s.tools, s.custom, h.announced[i], i, items)
          by { PlaceOf(s.tools, s.custom, h.announced, items, i); }
      assert Flushed(s.tools, s.custom, i);
      assert Get(s.tools.args, i)[..|Get(s.tools.args, i)|] == Get(s.tools.args, i);
      EmitFinalReads(s, ctx, i, items, at);
      var items' := items[at := items[at].(stage := Closed)];
      MessageUntouched(s.messages, s.response, c, h.text, MessageClosed(h), items, items');
      ReasoningUntouched(s.reasoning, s.response, c, h.closed, h.thinking, items, items');
      EmitFinalKeeps(s, ctx, i, at);
      forall j | j in h.announced ensures Flushed(FinishTool(s, ctx, i).tools, s.custom, j) {
        assert Flushed(s.tools, s.custom, j);
      }
      forall j ensures SameCall(FinishTool(s, ctx, i).tools, h.calls, h.announced, j) {
        assert SameCall(s.tools, h.calls, h.announced, j);
      }
    } else {
      assert s.tools.done + {i} == s.tools.done;
    }
  }

  lemma {:induction false} PlaceOf(t: Tools, custom: set<string>, announced: map<int, string>, items: seq<Live>, i: int)
    requires ToolsPlaced(t, custom, announced, items) && i in announced
    ensures ToolPlace(t, custom, announced[i], i, items)
  {
  }

  lemma {:induction false} EmitFinalKeeps(s: State, ctx: Context, i: int, at: nat)
    ensures var s' := EmitFinal(s, ctx, i, at); s' == s.(seqNo := s'.seqNo, log := s'.log)
  {
  }

  lemma {:induction false} FinishToolsSound(s: State, ctx: Context, c: int, h: Heard, keys: seq<int>)
    requires Sound(s, c, h) && h.finished && forall i :: i in keys ==> i in s.tools.callIds && FairCall(h, i)
    ensures var s' := FinishTools(s, ctx, keys);
            Sound(s', c, h) && s'.custom == s.custom && s'.tools == s.tools.(done := s'.tools.done)
            && (forall i :: i in keys ==> i in s'.tools.done) && s.tools.done <= s'.tools.done
    decreases |keys|
  {
    hide Sound, FinishTool, FairCall;
    if keys != [] {
      FinishToolSound(s, ctx, c, h, keys[0]);
      FinishToolsSound(FinishTool(s, ctx, keys[0]), ctx, c, h, keys[1..]);
      forall i | i in keys ensures i in FinishTools(s, ctx, keys).tools.done {
        if i != keys[0] {
          assert i in keys[1..];
        }
      }
    }
  }

  predicate AllClosed(items: seq<Live>) {
    forall k :: 0 <= k < |items| ==> items[k].stage.Closed?
  }

  lemma {:induction false} CloseOne(s: State, c: int)
    ensures CloseMessages(s, [c]) == CloseMessage(s, c)
  {
    hide CloseMessage;
    assert [c][1..] == [];
  }

  lemma {:induction false} SortedOne(keys: set<int>, c: int)
    requires keys == {c}
    ensures Sorted(keys) == [c]
  {
    var least :| least in keys && forall k :: k in keys ==> least <= k;
    assert keys - {least} == {};
    assert Sorted({}) == [];
  }

  lemma {:induction false} ToolsClosed(t: Tools, custom: set<string>, calls: map<int, Call>,
                                       announced: map<int, string>, items: seq<Live>, k: nat)
    requires SameCalls(t, calls, announced) && ToolsPlaced(t, custom, announced, items)
    requires forall i :: i in t.callIds ==> i in t.done
    requires k < |items| && KindOf(items[k]).Tool?
    ensures items[k].stage.Closed?
  {
    assert Owned(t, k);
    var i :| i in t.index && t.index[i] == k;
    assert SameCall(t, calls, announced, i);
    assert ToolPlace(t, custom, announced[i], i, items);
  }

  function BeforeTools(s: State): State {
    StopReasoning(CloseMessages(s, Sorted(s.messages.added)))
  }

  lemma {:induction false} BeforeToolsSound(s: State, c: int, h: Heard)
    requires Sound(s, c, h) && !h.finished
    ensures var s' := BeforeTools(s);
            Sound(s', c, Settle(h).(finished := true)) && s'.tools == s.tools && s'.custom == s.custom
  {
    hide Read, ReasoningTracks, ToolsPlaced, SameCall, CloseMessage, StopReasoning;
    var h1 := h.(finished := true);
    var s1 := CloseMessages(s, Sorted(s.messages.added));
    CloseMessageSound(s, c, h, h1);
    if h.text != "" {
      SortedOne(s.messages.added, c);
      CloseOne(s, c);
    } else {
      assert s1 == s;
    }
    StopReasoningSound(s1, c, h1);
  }

  lemma {:induction false} FinishSound(s: State, ctx: Context, c: int, h: Heard)
    requires Sound(s, c, h) && !h.finished && FairFinish(h)
    ensures var s', h' := Finish(s, ctx), Settle(h).(finished := true);
            Sound(s', c, h') && s'.custom == s.custom && AllClosed(Items(s'))
  {
    hide Read, ReasoningTracks, ToolsPlaced, CloseMessages, StopReasoning, FinishTool;
    var h2, s2 := Settle(h).(finished := true), BeforeTools(s);
    BeforeToolsSound(s, c, h);
    forall i | i in s2.tools.callIds ensures FairCall(h2, i) {
      assert SameCall(s2.tools, h2.calls, h2.announced, i);
      assert FairCall(h, i);
    }
    FinishToolsSound(s2, ctx, c, h2, Sorted(s2.tools.callIds.Keys));
    FinishedClosed(Finish(s, ctx), c, h2);
  }

  lemma {:induction false} FinishedClosed(s: State, c: int, h: Heard)
    requires Sound(s, c, h) && h.finished && h.thinking.None?
    requires forall i :: i in s.tools.callIds ==> i in s.tools.done
    ensures AllClosed(Items(s))
  {
    hide Read, Accept, ToolsPlaced;
    var items := Items(s);
    forall k | 0 <= k < |items| ensures items[k].stage.Closed? {
      if KindOf(items[k]).Tool? {
        ToolsClosed(s.tools, s.custom, h.calls, h.announced, items, k);
      }
    }
  }

  lemma {:induction false} HandleChoiceSound(s: State, ctx: Context, c: int, h: Heard, ch: Choice)
    requires Sound(s, c, h) && !h.finished && ch.index == c && FairChoice(h, s.custom, ch)
    ensures var s', h' := HandleChoice(s, ctx, ch), Hear(h, ch);
            Sound(s', c, h') && s'.custom == s.custom && (h'.finished <==> ch.finishReason != "")
            && (h'.finished ==> AllClosed(Items(s')))
  {
    hide Sound, HandleContent, HandleReasoning, HandleTools, Finish, FairToolsFrom, FairFinish, HearTools;
    HandleContentSound(s, c, h, ch.content);
    var s1, h1 := HandleContent(s, c, ch.content), HearContent(h, ch.content);
    HandleReasoningSound(s1, c, h1, ch.reasoning);
    var s2, h2 := HandleReasoning(s1, c, ch.reasoning), HearReasoning(h1, ch.reasoning);
    HandleToolsSound(s2, c, h2, ch.tools);
    var s3, h3 := HandleTools(s2, c, ch.tools), HearTools(h2, ch.tools);
    if ch.finishReason != "" {
      FinishSound(s3, ctx, c, h3);
    }
  }
}

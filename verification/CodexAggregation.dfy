/** Streaming against not streaming: when a message cut into deltas ends with the output items that
    the converter makes of the whole message. */
module CodexAggregation {
  import opened Options
  import opened ResponsesEvents
  import opened SortedKeys
  import opened OpenAIToCodex
  import opened CodexStreamSafety
  import opened CodexLateChoices
  import opened CodexStreams
  import opened CodexOutputs

  /** A whole Chat Completions message. */
  datatype Message = Message(reasoning: string, content: string, tools: seq<Call>)

  function ToolItems(ctx: Context, tools: seq<Call>): seq<Item> {
    if tools == [] then []
    else [ToolItem(ctx, ctx.custom, tools[0].id, tools[0].name, tools[0].arguments)] + ToolItems(ctx, tools[1..])
  }

  /** The output items of one choice. */
  function OutputOf(ctx: Context, response: string, c: int, m: Message): seq<Item> {
    (if m.reasoning != "" then [ReasoningItem(RsId(response, c), m.reasoning)] else [])
    + (if m.content != "" then [MessageItem(MsgId(response, c), m.content)] else [])
    + ToolItems(ctx, m.tools)
  }

  /** A choice of a non-streaming response; it may lack a message. */
  datatype Answer = Answer(index: int, message: Option<Message>)

  /** The output of a non-streaming response: TransformWithState. */
  function WholeOutput(ctx: Context, response: string, answers: seq<Answer>): seq<Item> {
    if answers == [] then []
    else
      (if answers[0].message.None? then [] else OutputOf(ctx, response, answers[0].index, answers[0].message.value))
      + WholeOutput(ctx, response, answers[1..])
  }

  /** The same as the loop over the choices that it is. */
  method TransformWhole(ctx: Context, response: string, answers: seq<Answer>) returns (output: seq<Item>)
    ensures output == WholeOutput(ctx, response, answers)
  {
    hide OutputOf;
    output := [];
    for k := 0 to |answers|
      invariant output + WholeOutput(ctx, response, answers[k..]) == WholeOutput(ctx, response, answers)
    {
      FirstAnswer(ctx, response, answers, k, output);
      if answers[k].message.Some? {
        output := TransformChoice(ctx, response, answers[k].index, answers[k].message.value, output);
      }
    }
    assert answers[|answers|..] == [];
  }

  lemma {:induction false} FirstAnswer(ctx: Context, response: string, answers: seq<Answer>, k: nat, output: seq<Item>)
    requires k < |answers|
    ensures var more := if answers[k].message.None? then []
                        else OutputOf(ctx, response, answers[k].index, answers[k].message.value);
            output + WholeOutput(ctx, response, answers[k..])
                == output + more + WholeOutput(ctx, response, answers[k + 1..])
            && output + [] == output
  {
    hide OutputOf;
    assert answers[k..][0] == answers[k] && answers[k..][1..] == answers[k + 1..];
  }

  /** The output of several answers is that of each, one after the other. */
  lemma {:induction false} WholeOutputJoins(ctx: Context, response: string, a: seq<Answer>, b: seq<Answer>)
    ensures WholeOutput(ctx, response, a + b) == WholeOutput(ctx, response, a) + WholeOutput(ctx, response, b)
    decreases |a|
  {
    hide OutputOf;
    if a == [] {
      assert a + b == b;
    } else {
      assert (a + b)[1..] == a[1..] + b;
      WholeOutputJoins(ctx, response, a[1..], b);
    }
  }

  method TransformChoice(ctx: Context, response: string, c: int, m: Message, given: seq<Item>)
      returns (output: seq<Item>)
    ensures output == given + OutputOf(ctx, response, c, m)
  {
    output := given;
    if m.reasoning != "" {
      output := output + [ReasoningItem(RsId(response, c), m.reasoning)];
    }
    if m.content != "" {
      output := output + [MessageItem(MsgId(response, c), m.content)];
    }
    ghost var before := output;
    for k := 0 to |m.tools|
      invariant output + ToolItems(ctx, m.tools[k..]) == before + ToolItems(ctx, m.tools)
    {
      hide ToolItem, ToolItems;
      var tool := m.tools[k];
      FirstTool(ctx, m.tools, k, output);
      output := output + [ToolItem(ctx, ctx.custom, tool.id, tool.name, tool.arguments)];
    }
    assert m.tools[|m.tools|..] == [];
    assert output + [] == output;
  }

  lemma {:induction false} FirstTool(ctx: Context, tools: seq<Call>, k: nat, output: seq<Item>)
    requires k < |tools|
    ensures var item := ToolItem(ctx, ctx.custom, tools[k].id, tools[k].name, tools[k].arguments);
            output + ToolItems(ctx, tools[k..]) == output + [item] + ToolItems(ctx, tools[k + 1..])
  {
    hide ToolItem;
    assert tools[k..][0] == tools[k] && tools[k..][1..] == tools[k + 1..];
  }

  // ---------------------------------------------------------------- cutting a message

  function Contents(choices: seq<Choice>): string {
    if choices == [] then "" else choices[0].content + Contents(choices[1..])
  }

  function Reasonings(choices: seq<Choice>): string {
    if choices == [] then "" else choices[0].reasoning + Reasonings(choices[1..])
  }

  datatype Indexed = Indexed(at: int, delta: ToolDelta)

  function IndexedFrom(ds: seq<ToolDelta>, k: nat): seq<Indexed>
    requires k <= |ds|
    decreases |ds| - k
  {
    if k == |ds| then [] else [Indexed(CallIndex(ds[k], k), ds[k])] + IndexedFrom(ds, k + 1)
  }

  /** All tool deltas of a stream with their call indices, in order. */
  function ToolDeltas(choices: seq<Choice>): seq<Indexed> {
    if choices == [] then []
    else (if choices[0].tools.Some? then IndexedFrom(choices[0].tools.value, 0) else []) + ToolDeltas(choices[1..])
  }

  function ArgumentsOf(ds: seq<Indexed>, i: int): string {
    if ds == [] then ""
    else (if ds[0].at == i then ds[0].delta.arguments else "") + ArgumentsOf(ds[1..], i)
  }

  predicate SomeId(ds: seq<Indexed>, i: int) {
    ds != [] && ((ds[0].at == i && ds[0].delta.id != "") || SomeId(ds[1..], i))
  }

  predicate SomeName(ds: seq<Indexed>, i: int) {
    ds != [] && ((ds[0].at == i && ds[0].delta.name != "") || SomeName(ds[1..], i))
  }

  /** All reasoning comes in one run: neither content nor a tool_calls delta stands between two pieces
      of it, where a choice's content comes before its own reasoning and its tool calls after. */
  predicate OneRun(choices: seq<Choice>) {
    choices == [] ||
    if choices[0].reasoning == "" then OneRun(choices[1..])
    else if choices[0].tools.Some? then Reasonings(choices[1..]) == ""
    else GoesOn(choices[1..])
  }

  /** The same with a run under way. */
  predicate GoesOn(choices: seq<Choice>) {
    choices == [] ||
    if choices[0].content != "" then Reasonings(choices) == ""
    else if choices[0].tools.Some? then Reasonings(choices[1..]) == ""
    else GoesOn(choices[1..])
  }

  /** No content comes after a tool_calls delta that has come after some content. */
  predicate ContentUnbroken(choices: seq<Choice>, spoken: bool) {
    choices == [] ||
    (var now := spoken || choices[0].content != "";
     if now && choices[0].tools.Some? then Contents(choices[1..]) == "" else ContentUnbroken(choices[1..], now))
  }

  /** Reasoning comes before content, and both before the tool calls. */
  predicate InOrder(choices: seq<Choice>)
    decreases |choices|
  {
    choices == [] ||
    (var rest := choices[1..];
     && (choices[0].content != "" ==> choices[0].reasoning == "" && Reasonings(rest) == "")
     && (choices[0].tools.Some? ==> Reasonings(rest) == "" && Contents(rest) == "")
     && InOrder(rest))
  }

  /** Each tool delta belongs to a call of the message and repeats its id and name or leaves them out. */
  predicate Belongs(m: Message, d: Indexed) {
    && 0 <= d.at < |m.tools|
    && (d.delta.id == "" || d.delta.id == m.tools[d.at].id)
    && (d.delta.name == "" || d.delta.name == m.tools[d.at].name)
  }

  predicate AllBelong(m: Message, ds: seq<Indexed>) {
    forall k :: 0 <= k < |ds| ==> Belongs(m, ds[k])
  }

  /** The choices are the message `m` cut into deltas, in whatever order. */
  predicate Splits(m: Message, choices: seq<Choice>) {
    var ds := ToolDeltas(choices);
    && Reasonings(choices) == m.reasoning && Contents(choices) == m.content
    && AllBelong(m, ds)
    && (forall i :: 0 <= i < |m.tools| ==>
          && m.tools[i].arguments == ArgumentsOf(ds, i)
          && (m.tools[i].id != "" ==> SomeId(ds, i)) && (m.tools[i].name != "" ==> SomeName(ds, i)))
  }

  predicate AllIdentified(m: Message) {
    forall i :: 0 <= i < |m.tools| ==> m.tools[i].id != ""
  }

  /** Every call with an id has a name. */
  predicate AllNamed(m: Message) {
    forall i :: 0 <= i < |m.tools| && m.tools[i].id != "" ==> m.tools[i].name != ""
  }

  // ---------------------------------------------------------------- what is heard of the calls

  function JoinCall(call: Call, d: ToolDelta): Call {
    Call(if call.id == "" then d.id else call.id, if d.name == "" then call.name else d.name,
         call.arguments + d.arguments)
  }

  function JoinCalls(calls: map<int, Call>, ds: seq<Indexed>): map<int, Call>
    decreases |ds|
  {
    if ds == [] then calls
    else JoinCalls(JoinAt(calls, ds[0]), ds[1..])
  }

  lemma {:induction false} HearToolsCalls(h: Heard, ds: seq<ToolDelta>, k: nat)
    requires k <= |ds|
    ensures HearToolsFrom(h, ds, k).calls == JoinCalls(h.calls, IndexedFrom(ds, k))
    decreases |ds| - k
  {
    if k < |ds| {
      HearToolsCalls(HearTool(h, CallIndex(ds[k], k), ds[k]), ds, k + 1);
    }
  }

  lemma {:induction false} JoinCallsConcat(calls: map<int, Call>, a: seq<Indexed>, b: seq<Indexed>)
    ensures JoinCalls(calls, a + b) == JoinCalls(JoinCalls(calls, a), b)
    decreases |a|
  {
    if a == [] {
      assert a + b == b;
    } else {
      assert (a + b)[1..] == a[1..] + b;
      JoinCallsConcat(JoinAt(calls, a[0]), a[1..], b);
    }
  }

  /** Words change no calls, and neither do the seal and the finish. */
  lemma {:induction false} WordsKeepCalls(h: Heard, ch: Choice)
    ensures var h1 := HearReasoning(HearContent(h, ch.content), ch.reasoning);
            && h1.calls == h.calls && h1.announced == h.announced
            && Seal(h1).calls == h.calls && Seal(h1).announced == h.announced
  {
    hide HearContent, HearReasoning;
    ContentKeepsCalls(h, ch.content);
    ReasoningKeepsCalls(HearContent(h, ch.content), ch.reasoning);
  }

  lemma {:induction false} ContentKeepsCalls(h: Heard, text: string)
    ensures HearContent(h, text).calls == h.calls && HearContent(h, text).announced == h.announced
  {
  }

  lemma {:induction false} ReasoningKeepsCalls(h: Heard, text: string)
    ensures HearReasoning(h, text).calls == h.calls && HearReasoning(h, text).announced == h.announced
  {
  }

  lemma {:induction false} FinishKeepsCalls(h: Heard, reason: string)
    ensures HearFinish(h, reason).calls == h.calls && HearFinish(h, reason).announced == h.announced
  {
  }

  lemma {:induction false} HearCalls(h: Heard, ch: Choice)
    ensures Hear(h, ch).calls
         == JoinCalls(h.calls, if ch.tools.Some? then IndexedFrom(ch.tools.value, 0) else [])
  {
    hide HearContent, HearReasoning, HearFinish, Seal, HearToolsFrom;
    var h1 := HearReasoning(HearContent(h, ch.content), ch.reasoning);
    WordsKeepCalls(h, ch);
    FinishKeepsCalls(HearTools(h1, ch.tools), ch.finishReason);
    if ch.tools.Some? {
      HearToolsCalls(Seal(h1), ch.tools.value, 0);
    }
  }

  lemma {:induction false} HearAllCalls(h: Heard, choices: seq<Choice>)
    ensures HearAll(h, choices).calls == JoinCalls(h.calls, ToolDeltas(choices))
    decreases |choices|
  {
    if choices != [] {
      HearCalls(h, choices[0]);
      HearAllCalls(Hear(h, choices[0]), choices[1..]);
      JoinCallsConcat(h.calls, if choices[0].tools.Some? then IndexedFrom(choices[0].tools.value, 0) else [],
                      ToolDeltas(choices[1..]));
    }
  }

  function JoinAt(calls: map<int, Call>, d: Indexed): map<int, Call> {
    calls[d.at := JoinCall(CallOf(calls, d.at), d.delta)]
  }

  /** The arguments heard of call `i` are those of its deltas, joined in order. */
  lemma {:induction false} JoinedArguments(calls: map<int, Call>, ds: seq<Indexed>, i: int)
    ensures CallOf(JoinCalls(calls, ds), i).arguments == CallOf(calls, i).arguments + ArgumentsOf(ds, i)
    decreases |ds|
  {
    if ds == [] {
      assert CallOf(calls, i).arguments + "" == CallOf(calls, i).arguments;
    } else {
      JoinedArguments(JoinAt(calls, ds[0]), ds[1..], i);
      var was, more, rest := CallOf(calls, i).arguments, ds[0].delta.arguments, ArgumentsOf(ds[1..], i);
      assert ds[0].at == i ==> (was + more) + rest == was + (more + rest);
      assert "" + rest == rest;
    }
  }

  predicate Matches(call: Call, whole: Call) {
    (call.id == "" || call.id == whole.id) && (call.name == "" || call.name == whole.name)
  }

  /** Call `i` after all deltas, when they agree on its id and name. */
  lemma {:induction false} JoinedCall(m: Message, calls: map<int, Call>, ds: seq<Indexed>, i: int)
    requires 0 <= i < |m.tools| && AllBelong(m, ds) && Matches(CallOf(calls, i), m.tools[i])
    ensures var call := CallOf(JoinCalls(calls, ds), i);
            && (CallOf(calls, i).id != "" || SomeId(ds, i) || m.tools[i].id == "" ==> call.id == m.tools[i].id)
            && (CallOf(calls, i).name != "" || SomeName(ds, i) || m.tools[i].name == "" ==>
                call.name == m.tools[i].name)
    decreases |ds|
  {
    if ds != [] {
      assert Belongs(m, ds[0]);
      var calls' := JoinAt(calls, ds[0]);
      assert CallOf(calls', i) == if ds[0].at == i then JoinCall(CallOf(calls, i), ds[0].delta) else CallOf(calls, i);
      JoinedCall(m, calls', ds[1..], i);
    }
  }

  lemma {:induction false} JoinedKeys(m: Message, calls: map<int, Call>, ds: seq<Indexed>)
    requires AllBelong(m, ds)
    requires forall i :: i in calls ==> 0 <= i < |m.tools|
    ensures forall i :: i in JoinCalls(calls, ds) ==> 0 <= i < |m.tools|
    decreases |ds|
  {
    if ds != [] {
      assert Belongs(m, ds[0]);
      JoinedKeys(m, JoinAt(calls, ds[0]), ds[1..]);
    }
  }

  predicate TheCalls(m: Message, calls: map<int, Call>) {
    && (forall i :: i in calls ==> 0 <= i < |m.tools|)
    && (forall i :: 0 <= i < |m.tools| ==> CallOf(calls, i) == m.tools[i])
  }

  /** What is heard of the calls of a split message is the calls of the message. */
  lemma {:induction false} CallsHeard(m: Message, choices: seq<Choice>)
    requires Splits(m, choices)
    ensures TheCalls(m, HearAll(SILENCE, choices).calls)
  {
    hide HearAll, Belongs;
    var ds, calls := ToolDeltas(choices), HearAll(SILENCE, choices).calls;
    HearAllCalls(SILENCE, choices);
    JoinedKeys(m, map[], ds);
    forall i | 0 <= i < |m.tools| ensures CallOf(calls, i) == m.tools[i] {
      JoinedCall(m, map[], ds, i);
      JoinedArguments(map[], ds, i);
      assert "" + ArgumentsOf(ds, i) == ArgumentsOf(ds, i);
    }
  }

  // ---------------------------------------------------------------- when a split message is fair

  predicate AgreesAt(m: Message, h: Heard, i: int) {
    var call := CallOf(h.calls, i);
    && (call != Call("", "", "") ==> 0 <= i < |m.tools|)
    && (call.id != "" ==> call.id == m.tools[i].id) && (call.name != "" ==> call.name == m.tools[i].name)
    && (i in h.announced <==> call.id != "" && call.name != "")
    && (i in h.announced ==> h.announced[i] == call.name)
  }

  ghost predicate Agrees(m: Message, h: Heard) {
    forall i :: AgreesAt(m, h, i)
  }

  lemma {:induction false} HearToolAgrees(m: Message, h: Heard, d: Indexed)
    requires Agrees(m, h) && Belongs(m, d)
    ensures Agrees(m, HearTool(h, d.at, d.delta))
  {
    forall i ensures AgreesAt(m, HearTool(h, d.at, d.delta), i) {
      assert AgreesAt(m, h, i);
    }
  }

  lemma {:induction false} AllBelongParts(m: Message, a: seq<Indexed>, b: seq<Indexed>)
    requires AllBelong(m, a + b)
    ensures AllBelong(m, a) && AllBelong(m, b)
  {
    forall k | 0 <= k < |a| ensures Belongs(m, a[k]) {
      assert (a + b)[k] == a[k];
    }
    forall k | 0 <= k < |b| ensures Belongs(m, b[k]) {
      assert (a + b)[|a| + k] == b[k];
    }
  }

  lemma {:induction false} HearToolsAgree(m: Message, h: Heard, custom: set<string>, ds: seq<ToolDelta>, k: nat)
    requires Agrees(m, h) && k <= |ds|
    requires AllBelong(m, IndexedFrom(ds, k))
    ensures Agrees(m, HearToolsFrom(h, ds, k)) && FairToolsFrom(h, custom, ds, k)
    decreases |ds| - k
  {
    hide Belongs, HearTool;
    if k < |ds| {
      var i := CallIndex(ds[k], k);
      var h' := HearTool(h, i, ds[k]);
      assert IndexedFrom(ds, k)[0] == Indexed(i, ds[k]);
      HearToolAgrees(m, h, Indexed(i, ds[k]));
      assert AgreesAt(m, h', i);
      AllBelongParts(m, [Indexed(i, ds[k])], IndexedFrom(ds, k + 1));
      HearToolsAgree(m, h', custom, ds, k + 1);
    }
  }

  predicate NamedCalls(h: Heard) {
    forall i :: i in h.calls && h.calls[i].id != "" ==> h.calls[i].name != ""
  }

  /** One choice of a split message, whose own deltas belong to it. */
  lemma {:induction false} ChoiceAgrees(m: Message, h: Heard, custom: set<string>, ch: Choice)
    requires Agrees(m, h) && (h.sealed ==> ch.content == "")
    requires ch.tools.Some? ==> AllBelong(m, IndexedFrom(ch.tools.value, 0))
    ensures Agrees(m, Hear(h, ch))
    ensures ch.finishReason == "" || NamedCalls(Hear(h, ch)) ==> FairChoice(h, custom, ch)
  {
    hide AllBelong, Agrees, HearToolsFrom, FairToolsFrom, FairCall, HearContent, HearReasoning, HearFinish, Seal;
    var h1 := HearReasoning(HearContent(h, ch.content), ch.reasoning);
    WordsKeepCalls(h, ch);
    FinishKeepsCalls(HearTools(h1, ch.tools), ch.finishReason);
    SameCallsAgree(m, h, h1);
    SameCallsAgree(m, h, Seal(h1));
    if ch.tools.Some? {
      HearToolsAgree(m, Seal(h1), custom, ch.tools.value, 0);
    }
    var h3 := HearTools(h1, ch.tools);
    SameCallsAgree(m, h3, Hear(h, ch));
    forall i | i in h3.calls && (h3.calls[i].id != "" ==> h3.calls[i].name != "") ensures FairCall(h3, i) {
      AgreesFair(m, h3, i);
    }
  }

  lemma {:induction false} AgreesFair(m: Message, h: Heard, i: int)
    requires Agrees(m, h) && i in h.calls && (h.calls[i].id != "" ==> h.calls[i].name != "")
    ensures FairCall(h, i)
  {
    assert AgreesAt(m, h, i);
  }

  lemma {:induction false} SameCallsAgree(m: Message, h: Heard, h': Heard)
    requires Agrees(m, h) && h'.calls == h.calls && h'.announced == h.announced
    ensures Agrees(m, h')
  {
    forall i ensures AgreesAt(m, h', i) {
      assert AgreesAt(m, h, i);
    }
  }

  lemma {:induction false} HearSeals(h: Heard, ch: Choice)
    ensures var h' := Hear(h, ch);
            && h'.text == h.text + ch.content
            && (h'.sealed <==> h.sealed || (ch.tools.Some? && (h.text != "" || ch.content != "")))
  {
    hide HearTools;
    var h2 := HearReasoning(HearContent(h, ch.content), ch.reasoning);
    assert h.text + "" == h.text;
    assert h2.text == h.text + ch.content && h2.sealed == h.sealed;
    HearToolsSeal(h2, ch.tools);
  }

  lemma {:induction false} HearToolsSeal(h: Heard, tools: Option<seq<ToolDelta>>)
    ensures var h' := HearTools(h, tools);
            h'.text == h.text && (h'.sealed <==> h.sealed || (tools.Some? && h.text != ""))
  {
    if tools.Some? {
      HearToolsTexts(Seal(h), tools.value, 0);
    }
  }

  lemma {:induction false} HearToolsTexts(h: Heard, ds: seq<ToolDelta>, k: nat)
    requires k <= |ds|
    ensures var h' := HearToolsFrom(h, ds, k);
            h'.text == h.text && h'.closed == h.closed && h'.thinking == h.thinking && h'.sealed == h.sealed
    decreases |ds| - k
  {
    if k < |ds| {
      HearToolsTexts(HearTool(h, CallIndex(ds[k], k), ds[k]), ds, k + 1);
    }
  }

  lemma {:induction false} DeltasFirst(m: Message, choices: seq<Choice>)
    requires choices != [] && AllBelong(m, ToolDeltas(choices))
    ensures AllBelong(m, ToolDeltas(choices[1..]))
    ensures choices[0].tools.Some? ==> AllBelong(m, IndexedFrom(choices[0].tools.value, 0))
  {
    AllBelongParts(m, if choices[0].tools.Some? then IndexedFrom(choices[0].tools.value, 0) else [],
                   ToolDeltas(choices[1..]));
  }

  predicate ContentFits(h: Heard, choices: seq<Choice>) {
    if h.sealed then Contents(choices) == "" else ContentUnbroken(choices, h.text != "")
  }

  lemma {:induction false} ContentStep(h: Heard, choices: seq<Choice>)
    requires choices != []
    ensures ContentFits(h, choices)
       <==> (h.sealed ==> choices[0].content == "") && ContentFits(Hear(h, choices[0]), choices[1..])
  {
    hide Hear;
    HearSeals(h, choices[0]);
  }

  lemma {:induction false} SilentFits(h: Heard, choices: seq<Choice>)
    requires AllSilent(choices)
    ensures ContentFits(h, choices)
    decreases |choices|
  {
    if choices != [] {
      assert Silent(choices[0]);
      SilentFits(h, choices[1..]);
    }
  }

  /** A split message is fair if its content fits and its calls have names. */
  lemma {:induction false} SplitFair(m: Message, h: Heard, custom: set<string>, choices: seq<Choice>)
    requires Agrees(m, h) && Framed(choices) && ContentFits(h, choices)
    requires AllBelong(m, ToolDeltas(choices)) && NamedCalls(HearAll(h, choices))
    ensures Fair(h, custom, choices)
    decreases |choices|
  {
    hide Belongs, Hear, FairChoice, Agrees, ToolDeltas, ContentFits, NamedCalls;
    var ch, rest := choices[0], choices[1..];
    assert HearAll(h, choices) == HearAll(Hear(h, ch), rest);
    ContentStep(h, choices);
    if ch.finishReason != "" {
      HearSilent(Hear(h, ch), rest);
    }
    assert AllBelong(m, ToolDeltas(rest)) && (ch.tools.Some? ==> AllBelong(m, IndexedFrom(ch.tools.value, 0))) by {
      DeltasFirst(m, choices);
    }
    ChoiceAgrees(m, h, custom, ch);
    if ch.finishReason == "" {
      SplitFair(m, Hear(h, ch), custom, rest);
    }
  }

  lemma {:induction false} FairFits(h: Heard, custom: set<string>, choices: seq<Choice>)
    requires Framed(choices) && Fair(h, custom, choices)
    ensures ContentFits(h, choices)
    decreases |choices|
  {
    hide Hear, HearTools, FairToolsFrom, FairFinish, ContentFits;
    ContentStep(h, choices);
    if choices[0].finishReason != "" {
      SilentFits(Hear(h, choices[0]), choices[1..]);
    } else {
      FairFits(Hear(h, choices[0]), custom, choices[1..]);
    }
  }

  // ---------------------------------------------------------------- texts of a split message

  /** The runs of reasoning heard so far, the one under way included. */
  function Runs(h: Heard): seq<string> {
    if h.thinking.Some? then h.closed + [h.thinking.value] else h.closed
  }

  /** The runs after one more choice. */
  function RunsAfter(h: Heard, ch: Choice): seq<string> {
    if ch.reasoning == "" then Runs(h)
    else if ch.content == "" && h.thinking.Some? then h.closed + [h.thinking.value + ch.reasoning]
    else Runs(h) + [ch.reasoning]
  }

  lemma {:induction false} HearToolsRuns(h: Heard, tools: Option<seq<ToolDelta>>)
    ensures var h' := HearTools(h, tools);
            Runs(h') == Runs(h) && (h'.thinking.Some? <==> h.thinking.Some? && tools.None?)
  {
    if tools.Some? {
      HearToolsTexts(Seal(h), tools.value, 0);
    }
  }

  lemma {:induction false} HearRuns(h: Heard, ch: Choice)
    ensures var h' := Hear(h, ch);
            && Runs(h') == RunsAfter(h, ch)
            && (h'.thinking.Some? <==>
                  && ch.tools.None? && ch.finishReason == ""
                  && (ch.reasoning != "" || (ch.content == "" && h.thinking.Some?)))
  {
    hide HearTools;
    var h2 := HearReasoning(HearContent(h, ch.content), ch.reasoning);
    assert "" + ch.reasoning == ch.reasoning;
    assert Runs(h2) == RunsAfter(h, ch);
    HearToolsRuns(h2, ch.tools);
  }

  lemma {:induction false} SilentTexts(choices: seq<Choice>)
    requires AllSilent(choices)
    ensures Contents(choices) == "" && Reasonings(choices) == "" && GoesOn(choices) && OneRun(choices)
  {
    if choices != [] {
      assert Silent(choices[0]);
      SilentTexts(choices[1..]);
    }
  }

  /** How many runs of reasoning there are in the end. */
  lemma {:induction false} CountRuns(h: Heard, choices: seq<Choice>)
    requires Framed(choices)
    ensures var n := |HearAll(h, choices).closed|;
            && n >= |Runs(h)|
            && (if h.thinking.Some? then n == |Runs(h)| <==> GoesOn(choices)
                else (n == |Runs(h)| <==> Reasonings(choices) == "") && (n <= |Runs(h)| + 1 <==> OneRun(choices)))
    decreases |choices|
  {
    hide Hear;
    var ch, rest := choices[0], choices[1..];
    HearRuns(h, ch);
    if ch.finishReason != "" {
      SilentTexts(rest);
      HearSilent(Hear(h, ch), rest);
    } else {
      CountRuns(Hear(h, ch), rest);
    }
  }

  function Joined(texts: seq<string>): string {
    if texts == [] then "" else Joined(texts[..|texts| - 1]) + texts[|texts| - 1]
  }

  lemma {:induction false} JoinedMore(texts: seq<string>, last: string)
    ensures Joined(texts + [last]) == Joined(texts) + last
  {
    assert (texts + [last])[..|texts|] == texts;
  }

  predicate NonEmpty(texts: seq<string>) {
    forall k :: 0 <= k < |texts| ==> texts[k] != ""
  }

  lemma {:induction false} RunsJoined(h: Heard, ch: Choice)
    requires NonEmpty(Runs(h))
    ensures Joined(RunsAfter(h, ch)) == Joined(Runs(h)) + ch.reasoning && NonEmpty(RunsAfter(h, ch))
  {
    assert Joined(Runs(h)) + "" == Joined(Runs(h));
    JoinedMore(Runs(h), ch.reasoning);
    if h.thinking.Some? {
      assert Runs(h)[|h.closed|] != "";
      JoinedMore(h.closed, h.thinking.value);
      JoinedMore(h.closed, h.thinking.value + ch.reasoning);
      var was := Joined(h.closed);
      assert was + (h.thinking.value + ch.reasoning) == (was + h.thinking.value) + ch.reasoning;
    }
    assert forall k :: 0 <= k < |h.closed| ==> h.closed[k] == Runs(h)[k];
  }

  /** The text heard is the content, and the runs of reasoning, none of them empty, are the reasoning. */
  lemma {:induction false} SplitTexts(h: Heard, choices: seq<Choice>)
    requires Framed(choices) && NonEmpty(Runs(h))
    ensures var h' := HearAll(h, choices);
            && h'.text == h.text + Contents(choices)
            && Joined(h'.closed) == Joined(Runs(h)) + Reasonings(choices) && NonEmpty(h'.closed)
    decreases |choices|
  {
    hide Hear, RunsAfter, NonEmpty, Joined;
    var ch, rest := choices[0], choices[1..];
    var h1 := Hear(h, ch);
    HearSeals(h, ch);
    HearRuns(h, ch);
    RunsJoined(h, ch);
    if ch.finishReason != "" {
      SilentTexts(rest);
      HearSilent(h1, rest);
      assert ch.content + "" == ch.content && ch.reasoning + "" == ch.reasoning;
    } else {
      SplitTexts(h1, rest);
      assert (h.text + ch.content) + Contents(rest) == h.text + (ch.content + Contents(rest));
      assert (Joined(Runs(h)) + ch.reasoning) + Reasonings(rest) == Joined(Runs(h)) + (ch.reasoning + Reasonings(rest));
    }
  }

  // ---------------------------------------------------------------- the main result

  function Range(from: int, n: int): seq<int>
    requires from <= n
    decreases n - from
  {
    if from == n then [] else [from] + Range(from + 1, n)
  }

  lemma {:induction false} SortedRange(keys: set<int>, from: int, n: int)
    requires from <= n && forall i :: i in keys <==> from <= i < n
    ensures Sorted(keys) == Range(from, n)
    decreases n - from
  {
    hide Sorted;
    if from == n {
      Inhabited(keys);
      NoneSorted();
    } else {
      SortedHead(keys, from);
      SortedRange(keys - {from}, from + 1, n);
    }
  }

  lemma {:induction false} NoneSorted()
    ensures Sorted({}) == []
  {
  }

  lemma {:induction false} HeardToolItems(ctx: Context, calls: map<int, Call>, tools: seq<Call>, from: nat)
    requires from <= |tools| && forall i :: from <= i < |tools| ==> CallOf(calls, i) == tools[i]
    ensures HeardTools(ctx, calls, Range(from, |tools|)) == ToolItems(ctx, tools[from..])
    decreases |tools| - from
  {
    if from < |tools| {
      HeardToolItems(ctx, calls, tools, from + 1);
      assert Range(from, |tools|)[1..] == Range(from + 1, |tools|);
      assert tools[from..][1..] == tools[from + 1..];
    }
  }

  predicate OfCall(item: Item, id: string) {
    !item.ReasoningItem? && !item.MessageItem? && item.callId == id
  }

  /** The items of the calls heard carry ids, and those of a whole message the ids it gives. */
  lemma {:induction false} HeardIds(ctx: Context, calls: map<int, Call>, keys: seq<int>)
    requires forall i :: i in keys ==> i in Named(calls)
    ensures var items := HeardTools(ctx, calls, keys);
            |items| == |keys| && forall k :: 0 <= k < |items| ==> OfCall(items[k], CallOf(calls, keys[k]).id)
  {
    if keys != [] {
      HeardIds(ctx, calls, keys[1..]);
    }
  }

  lemma {:induction false} ToolItemIds(ctx: Context, tools: seq<Call>)
    ensures var items := ToolItems(ctx, tools);
            |items| == |tools| && forall k :: 0 <= k < |tools| ==> OfCall(items[k], tools[k].id)
  {
    if tools != [] {
      ToolItemIds(ctx, tools[1..]);
    }
  }

  lemma {:induction false} NoSecondThought(ctx: Context, response: string, c: int, m: Message)
    ensures var items := OutputOf(ctx, response, c, m); |items| > 1 ==> !items[1].ReasoningItem?
  {
    hide ToolItems;
    ToolItemIds(ctx, m.tools);
  }

  lemma {:induction false} OneThought(response: string, c: int, closed: seq<string>)
    requires |closed| <= 1 && NonEmpty(closed)
    ensures Segments(response, c, closed)
         == if Joined(closed) != "" then [ReasoningItem(RsId(response, c), Joined(closed))] else []
  {
    if |closed| == 1 {
      assert closed[..0] == [] && "" + closed[0] == closed[0];
    }
  }

  lemma {:induction false} SameHead<T>(a: seq<T>, b: seq<T>, b': seq<T>)
    ensures a + b == a + b' <==> b == b'
  {
    assert (a + b)[|a|..] == b && (a + b')[|a|..] == b';
  }

  /** The calls heard give the items of the whole message exactly if none of them lacks its id. */
  lemma {:induction false} CallsExactly(ctx: Context, m: Message, calls: map<int, Call>)
    requires TheCalls(m, calls)
    ensures HeardTools(ctx, calls, Sorted(Named(calls))) == ToolItems(ctx, m.tools) <==> AllIdentified(m)
  {
    hide ToolItem, Sorted;
    var keys := Sorted(Named(calls));
    HeardIds(ctx, calls, keys);
    ToolItemIds(ctx, m.tools);
    if AllIdentified(m) {
      forall i | 0 <= i < |m.tools| ensures i in Named(calls) {
        assert CallOf(calls, i) == m.tools[i];
      }
      SortedRange(Named(calls), 0, |m.tools|);
      HeardToolItems(ctx, calls, m.tools, 0);
      assert m.tools[0..] == m.tools;
    } else {
      var i :| 0 <= i < |m.tools| && m.tools[i].id == "";
      assert OfCall(ToolItems(ctx, m.tools)[i], "");
      assert i < |keys| ==> keys[i] in Named(calls);
    }
  }

  /** The items heard are those of the whole message exactly if there is at most one run of
      reasoning and no call lacks its id. */
  lemma {:induction false} ExpectedExactly(ctx: Context, response: string, c: int, m: Message, choices: seq<Choice>)
    requires Framed(choices) && Splits(m, choices)
    ensures Expected(ctx, response, c, HearAll(SILENCE, choices)) == OutputOf(ctx, response, c, m)
       <==> OneRun(choices) && AllIdentified(m)
  {
    hide HearAll, Framed, OneRun, ToolItems, HeardTools, AllIdentified, Sorted, Joined, NonEmpty, Segments;
    var h := HearAll(SILENCE, choices);
    assert Joined([]) == "" && NonEmpty([]) by { NothingJoined(); }
    SplitTexts(SILENCE, choices);
    CountRuns(SILENCE, choices);
    CallsHeard(m, choices);
    CallsExactly(ctx, m, h.calls);
    assert "" + m.content == m.content && "" + m.reasoning == m.reasoning;
    if |h.closed| <= 1 {
      OneThought(response, c, h.closed);
      var words := if m.content == "" then [] else [MessageItem(MsgId(response, c), m.content)];
      SameHead(Segments(response, c, h.closed) + words, HeardTools(ctx, h.calls, Sorted(Named(h.calls))),
               ToolItems(ctx, m.tools));
    } else {
      NoSecondThought(ctx, response, c, m);
      ManyThoughts(ctx, response, c, h);
    }
  }

  lemma {:induction false} NothingJoined()
    ensures Joined([]) == "" && NonEmpty([])
  {
  }

  lemma {:induction false} ManyThoughts(ctx: Context, response: string, c: int, h: Heard)
    requires |h.closed| > 1
    ensures var items := Expected(ctx, response, c, h); |items| > 1 && items[1].ReasoningItem?
  {
    hide HeardTools, Sorted;
  }

  /** A message cut into deltas: `response.completed` carries the items that the whole message gives
      exactly if its reasoning comes in one run and each of its calls has an id; and the events are
      well formed exactly if no call with an id lacks a name and no content follows content that a
      tool_calls delta has ended. */
  lemma {:induction false} StreamingMatchesExactly(ctx: Context, chunks: seq<Chunk>, c: int, m: Message)
    requires AllSingle(chunks, c) && Framed(Said(chunks)) && Splits(m, Said(chunks))
    ensures var s, whole := Stream(ctx, chunks), WholeOutput(ctx, ResponseId(ctx, chunks), [Answer(c, Some(m))]);
            && (CarriesLast(s.log, Completed(ResponseId(ctx, chunks), whole))
                <==> OneRun(Said(chunks)) && AllIdentified(m))
            && (WellFormed(s.log) <==> AllNamed(m) && ContentUnbroken(Said(chunks), false))
  {
    hide Splits, Stream, HearAll, Framed, WellFormed, Expected, OutputOf, Said, AllNamed, OneRun, AllIdentified;
    hide ContentUnbroken;
    var choices := Said(chunks);
    FramedEnds(SILENCE, ctx.custom, choices);
    OutputExact(ctx, chunks, c);
    StreamExact(ctx, chunks, c);
    ExpectedExactly(ctx, ResponseId(ctx, chunks), c, m, choices);
    OneAnswer(ctx, ResponseId(ctx, chunks), c, m);
    FairSplit(ctx, m, choices);
  }

  /** So it is for a message with ids whose parts come in the usual order. */
  lemma {:induction false} StreamingMatchesWhole(ctx: Context, chunks: seq<Chunk>, c: int, m: Message)
    requires AllSingle(chunks, c) && Framed(Said(chunks)) && Splits(m, Said(chunks))
    requires InOrder(Said(chunks)) && AllIdentified(m)
    ensures var s, whole := Stream(ctx, chunks), WholeOutput(ctx, ResponseId(ctx, chunks), [Answer(c, Some(m))]);
            && CarriesLast(s.log, Completed(ResponseId(ctx, chunks), whole))
            && (WellFormed(s.log) <==> AllNamed(m))
  {
    hide Splits, Stream, Framed, WellFormed, WholeOutput, Said, AllNamed, OneRun, AllIdentified, CarriesLast;
    StreamingMatchesExactly(ctx, chunks, c, m);
    OrderedRun(Said(chunks));
    OrderedContent(Said(chunks), false);
  }

  lemma {:induction false} OrderedRun(choices: seq<Choice>)
    requires InOrder(choices)
    ensures OneRun(choices) && GoesOn(choices)
    decreases |choices|
  {
    if choices != [] {
      OrderedRun(choices[1..]);
    }
  }

  lemma {:induction false} OrderedContent(choices: seq<Choice>, spoken: bool)
    requires InOrder(choices)
    ensures ContentUnbroken(choices, spoken)
    decreases |choices|
  {
    if choices != [] {
      OrderedContent(choices[1..], spoken || choices[0].content != "");
    }
  }

  lemma {:induction false} OneAnswer(ctx: Context, response: string, c: int, m: Message)
    ensures WholeOutput(ctx, response, [Answer(c, Some(m))]) == OutputOf(ctx, response, c, m)
  {
    hide OutputOf;
    assert [Answer(c, Some(m))][1..] == [];
  }

  lemma {:induction false} FairSplit(ctx: Context, m: Message, choices: seq<Choice>)
    requires Framed(choices) && Splits(m, choices)
    ensures Fair(SILENCE, ctx.custom, choices) <==> AllNamed(m) && ContentUnbroken(choices, false)
  {
    hide HearAll, Fair, Framed, Splits, ContentUnbroken;
    var calls := HearAll(SILENCE, choices).calls;
    CallsHeard(m, choices);
    assert ContentFits(SILENCE, choices) <==> ContentUnbroken(choices, false);
    if AllNamed(m) && ContentUnbroken(choices, false) {
      SplitParts(m, choices);
      forall i | i in calls && calls[i].id != "" ensures calls[i].name != "" {
        assert 0 <= i < |m.tools| && CallOf(calls, i) == m.tools[i];
      }
      SplitFair(m, SILENCE, ctx.custom, choices);
    }
    if Fair(SILENCE, ctx.custom, choices) {
      FairFits(SILENCE, ctx.custom, choices);
      FairNames(SILENCE, ctx.custom, choices);
      forall i | 0 <= i < |m.tools| && m.tools[i].id != "" ensures m.tools[i].name != "" {
        assert CallOf(calls, i) == m.tools[i];
        assert FairCall(HearAll(SILENCE, choices), i);
      }
    }
  }

  lemma {:induction false} SplitParts(m: Message, choices: seq<Choice>)
    requires Splits(m, choices)
    ensures AllBelong(m, ToolDeltas(choices))
  {
  }

  /** A call is announced only under a name. */
  predicate AnnouncedNamed(h: Heard) {
    forall i :: i in h.announced ==> h.announced[i] != ""
  }

  lemma {:induction false} HearToolsNamed(h: Heard, ds: seq<ToolDelta>, k: nat)
    requires k <= |ds| && AnnouncedNamed(h)
    ensures AnnouncedNamed(HearToolsFrom(h, ds, k))
    decreases |ds| - k
  {
    if k < |ds| {
      HearToolsNamed(HearTool(h, CallIndex(ds[k], k), ds[k]), ds, k + 1);
    }
  }

  lemma {:induction false} HearNamed(h: Heard, ch: Choice)
    requires AnnouncedNamed(h)
    ensures AnnouncedNamed(Hear(h, ch))
  {
    hide HearContent, HearReasoning, HearFinish, Seal, HearToolsFrom;
    var h1 := HearReasoning(HearContent(h, ch.content), ch.reasoning);
    WordsKeepCalls(h, ch);
    FinishKeepsCalls(HearTools(h1, ch.tools), ch.finishReason);
    if ch.tools.Some? {
      HearToolsNamed(Seal(h1), ch.tools.value, 0);
    }
  }

  /** At the end of a fair stream every call with an id has a name. */
  lemma {:induction false} FairNames(h: Heard, custom: set<string>, choices: seq<Choice>)
    requires Framed(choices) && Fair(h, custom, choices) && AnnouncedNamed(h)
    ensures var h' := HearAll(h, choices);
            AnnouncedNamed(h') && forall i :: i in h'.calls ==> FairCall(h', i)
    decreases |choices|
  {
    hide AnnouncedNamed, FairToolsFrom, HearToolsFrom, FairCall;
    var ch, rest := choices[0], choices[1..];
    HearNamed(h, ch);
    if ch.finishReason != "" {
      HearSilent(Hear(h, ch), rest);
      FinishFair(h, custom, ch);
    } else {
      FairNames(Hear(h, ch), custom, rest);
    }
  }

  // ---------------------------------------------------------------- a message that comes out otherwise

  lemma {:induction false} ThreeHeard(a: Choice, b: Choice, d: Choice)
    requires a.finishReason == b.finishReason == "" && d.finishReason != ""
    ensures Framed([a, b, d]) && HearAll(SILENCE, [a, b, d]) == Hear(Hear(Hear(SILENCE, a), b), d)
  {
    hide Hear;
    assert [a, b, d][1..] == [b, d] && [b, d][1..] == [d] && [d][1..] == [];
    assert Framed([d]);
    assert Framed([b, d]);
    var h := Hear(Hear(SILENCE, a), b);
    assert HearAll(h, [d]) == Hear(h, d);
    assert HearAll(Hear(SILENCE, a), [b, d]) == HearAll(h, [d]);
  }

  lemma {:induction false} ThreeSaid(a: Choice, b: Choice, d: Choice)
    ensures var chunks := [ChunkOf(a), ChunkOf(b), ChunkOf(d)];
            Said(chunks) == [a, b, d] && (a.index == b.index == d.index ==> AllSingle(chunks, a.index))
  {
    var chunks := [ChunkOf(a), ChunkOf(b), ChunkOf(d)];
    assert chunks[1..] == [ChunkOf(b), ChunkOf(d)] && chunks[2..] == [ChunkOf(d)] && chunks[3..] == [];
    assert chunks[1..][1..] == chunks[2..] && chunks[2..][1..] == chunks[3..];
    assert Said(chunks[2..]) == [d];
    assert Said(chunks[1..]) == [b, d];
  }

  lemma {:induction false} TwoRunsHeard()
    ensures var h1 := Hear(SILENCE, Choice(0, "", "a", None, ""));
            var h := Hear(Hear(h1, Choice(0, "c", "b", None, "")), Choice(0, "", "", None, "stop"));
            h.closed == ["a", "b"] && h.text == "c" && h.calls == map[]
  {
    var h1, h2 := SILENCE.(thinking := Some("a")), SILENCE.(closed := ["a"], thinking := Some("b"), text := "c");
    assert "" + "a" == "a" && "" + "c" == "c" && "" + "b" == "b" && [] + ["a"] == ["a"] && ["a"] + ["b"] == ["a", "b"];
    assert Hear(SILENCE, Choice(0, "", "a", None, "")) == h1;
    assert Hear(h1, Choice(0, "c", "b", None, "")) == h2;
  }

  /** A content delta between two pieces of reasoning makes two reasoning items of them, where the
      whole message has one. */
  lemma {:induction false} ReasoningComesApart(ctx: Context)
    ensures var first, second := Choice(0, "", "a", None, ""), Choice(0, "c", "b", None, "");
            var last, id := Choice(0, "", "", None, "stop"), "r";
            var s := Stream(ctx, [ChunkOf(first), ChunkOf(second), ChunkOf(last)]);
            var rs, message := RsId(id, 0), MessageItem(MsgId(id, 0), "c");
            && CarriesLast(s.log, Completed(id, [ReasoningItem(rs, "a"), ReasoningItem(rs, "b"), message]))
            && WholeOutput(ctx, id, [Answer(0, Some(Message.Message("ab", "c", [])))])
               == [ReasoningItem(rs, "ab"), message]
  {
    hide Stream, CarriesLast, Hear, HearAll, Framed, Said, AllSingle, Sorted;
    var first, second := Choice(0, "", "a", None, ""), Choice(0, "c", "b", None, "");
    var last, id := Choice(0, "", "", None, "stop"), "r";
    var chunks := [ChunkOf(first), ChunkOf(second), ChunkOf(last)];
    ThreeSaid(first, second, last);
    ThreeHeard(first, second, last);
    FramedEnds(SILENCE, ctx.custom, [first, second, last]);
    OutputExact(ctx, chunks, 0);
    assert ResponseId(ctx, chunks) == id;
    var h := Hear(Hear(Hear(SILENCE, first), second), last);
    assert h.closed == ["a", "b"] && h.text == "c" && h.calls == map[] by {
      TwoRunsHeard();
    }
    NoneSorted();
    assert Named(h.calls) == {};
    var rs, message := RsId(id, 0), MessageItem(MsgId(id, 0), "c");
    assert Expected(ctx, id, 0, h) == [ReasoningItem(rs, "a"), ReasoningItem(rs, "b"), message];
    OneAnswer(ctx, id, 0, Message.Message("ab", "c", []));
  }
}

/** What single-choice streams may still say after their finish reason without any event. */
module CodexLateChoices {
  import opened Options
  import opened ResponsesEvents
  import opened SortedKeys
  import opened OpenAIToCodex
  import opened CodexStreamSafety
  import opened CodexStreamExact

  // ---------------------------------------------------------------- mute choices

  /** How much of the arguments of call `i` had been sent when the stream ended. */
  function SentAt(end: Heard, custom: set<string>, i: int): nat {
    if i in end.announced && end.announced[i] in custom then 0 else |CallOf(end.calls, i).arguments|
  }

  /** The delta that turns `h` into `h'` announces nothing, and adds no arguments to a function call. */
  predicate MuteTool(end: Heard, h: Heard, h': Heard, custom: set<string>, i: int) {
    && h'.announced == h.announced
    && (i in h'.announced ==>
          CallOf(h'.calls, i).name in custom || |CallOf(h'.calls, i).arguments| <= SentAt(end, custom, i))
  }

  predicate MuteToolsFrom(end: Heard, h: Heard, custom: set<string>, ds: seq<ToolDelta>, k: nat)
    requires k <= |ds|
    decreases |ds| - k
  {
    k == |ds| ||
    (var i := CallIndex(ds[k], k);
     MuteTool(end, h, HearTool(h, i, ds[k]), custom, i) && MuteToolsFrom(end, HearTool(h, i, ds[k]), custom, ds, k + 1))
  }

  function HearLate(h: Heard, ch: Choice): Heard {
    if ch.tools.None? then h else HearToolsFrom(h, ch.tools.value, 0)
  }

  /** No text, no reasoning, mute tool deltas, and no second finish while a call has an id that it did
      not have at the first. */
  predicate MuteChoice(end: Heard, h: Heard, custom: set<string>, ch: Choice) {
    && ch.content == "" && ch.reasoning == ""
    && (ch.tools.Some? ==> MuteToolsFrom(end, h, custom, ch.tools.value, 0))
    && (ch.finishReason != "" ==>
          forall i :: i in HearLate(h, ch).calls && HearLate(h, ch).calls[i].id != "" ==> i in end.announced)
  }

  predicate Mute(end: Heard, h: Heard, custom: set<string>, choices: seq<Choice>)
    decreases |choices|
  {
    choices == [] ||
    (MuteChoice(end, h, custom, choices[0]) && Mute(end, HearLate(h, choices[0]), custom, choices[1..]))
  }

  // ---------------------------------------------------------------- the state after the end

  /** The stream is over: nothing is open, and the tables hold what was heard since. */
  ghost predicate Late(s: State, end: Heard, h: Heard) {
    && s.started && s.completed && s.reasoning.id.None? && s.messages.added <= s.messages.done
    && SameCalls(s.tools, h.calls, h.announced) && h.announced == end.announced
    && s.tools.done == end.announced.Keys
    && forall i :: i in end.announced ==> IndexOf(s.tools.sent, i) == SentAt(end, s.custom, i)
  }

  lemma {:induction false} FinishFair(h: Heard, custom: set<string>, ch: Choice)
    requires FairChoice(h, custom, ch) && ch.finishReason != ""
    ensures Hear(h, ch).thinking.None? && forall i :: i in Hear(h, ch).calls ==> FairCall(Hear(h, ch), i)
  {
    hide FairToolsFrom, HearToolsFrom;
    var h3 := HearTools(HearReasoning(HearContent(h, ch.content), ch.reasoning), ch.tools);
    forall i | i in Hear(h, ch).calls ensures FairCall(Hear(h, ch), i) {
      assert FairCall(h3, i);
    }
  }

  lemma {:induction false} CallDone(s: State, c: int, h: Heard, i: int)
    requires Sound(s, c, h) && AllClosed(Items(s)) && i in h.announced && FairCall(h, i)
    ensures i in s.tools.done && IndexOf(s.tools.sent, i) == SentAt(h, s.custom, i)
  {
    hide Read, Reads;
    assert SameCall(s.tools, h.calls, h.announced, i);
    assert ToolPlace(s.tools, s.custom, h.announced[i], i, Items(s));
    assert Flushed(s.tools, s.custom, i);
  }

  lemma {:induction false} EndLate(s: State, ctx: Context, c: int, h: Heard, ch: Choice)
    requires Sound(s, c, h) && h.finished && h.thinking.None? && AllClosed(Items(s)) && ch.finishReason != ""
    requires forall i :: i in h.calls ==> FairCall(h, i)
    ensures Late(Complete(s, ctx, [ch]), h, h)
  {
    hide Read, Reads, AllClosed, FairCall, IndexOf, SentAt;
    assert [ch][0].finishReason != "";
    forall i | i in h.announced ensures i in s.tools.done {
      assert SameCall(s.tools, h.calls, h.announced, i);
      CallDone(s, c, h, i);
    }
    forall i | i in h.announced ensures IndexOf(s.tools.sent, i) == SentAt(h, s.custom, i) {
      assert SameCall(s.tools, h.calls, h.announced, i);
      CallDone(s, c, h, i);
    }
  }

  // ---------------------------------------------------------------- choice by choice

  lemma {:induction false} LateTool(s: State, end: Heard, h: Heard, i: int, d: ToolDelta)
    requires Late(s, end, h)
    ensures var s', h' := HandleTool(s, i, d), HearTool(h, i, d);
            && (MuteTool(end, h, h', s.custom, i) <==> s'.log == s.log)
            && (MuteTool(end, h, h', s.custom, i) ==> Late(s', end, h'))
  {
    hide AnnounceTool, FlushArguments, HearTool, SameCalls;
    var h', s1 := HearTool(h, i, d), s.(tools := NoteTool(s.tools, i, d));
    TablesAgree(s.tools, h);
    NoteFacts(s.tools, h, i, d);
    HandleToolShape(s, i, d);
    SameCallsAfter(s.tools, HandleTool(s, i, d).tools, h, i, d);
    AnnounceLog(s1, i);
    AnnounceShape(s1, i);
    var s2 := AnnounceTool(s1, i);
    var s3 := s2.(tools := BufferArguments(s2.tools, i, d.arguments));
    FlushLog(s3, i);
    assert HandleTool(s, i, d) == FlushArguments(s3, i);
    if Becomes(s1.tools, i) {
      assert h'.announced != h.announced && |s2.log| > |s.log|;
    } else {
      assert s2 == s1;
      assert Get(s3.tools.names, i) == CallOf(h'.calls, i).name;
      assert Get(s3.tools.args, i) == CallOf(h'.calls, i).arguments;
    }
  }

  lemma {:induction false} TablesAgree(t: Tools, h: Heard)
    requires SameCalls(t, h.calls, h.announced)
    ensures t.added == t.index.Keys == h.announced.Keys && t.sent.Keys <= t.added
  {
  }

  lemma {:induction false} AnnounceLog(s: State, i: int)
    ensures if Becomes(s.tools, i) then |AnnounceTool(s, i).log| == |s.log| + 1 else AnnounceTool(s, i) == s
  {
  }

  lemma {:induction false} FlushLog(s: State, i: int)
    ensures var s' := FlushArguments(s, i);
            if IsCustom(s, i) || i !in s.tools.added || Get(s.tools.callIds, i) == ""
               || |Get(s.tools.args, i)| <= IndexOf(s.tools.sent, i)
            then s' == s else |s'.log| == |s.log| + 1
  {
  }

  lemma {:induction false} LateToolsFrom(s: State, end: Heard, h: Heard, ds: seq<ToolDelta>, k: nat)
    requires Late(s, end, h) && k <= |ds|
    ensures var s', h' := HandleToolsFrom(s, ds, k), HearToolsFrom(h, ds, k);
            && (MuteToolsFrom(end, h, s.custom, ds, k) <==> s'.log == s.log)
            && (MuteToolsFrom(end, h, s.custom, ds, k) ==> Late(s', end, h'))
    decreases |ds| - k
  {
    hide Late, HandleTool, HearTool, MuteTool;
    if k < |ds| {
      var i := CallIndex(ds[k], k);
      LateTool(s, end, h, i, ds[k]);
      if MuteTool(end, h, HearTool(h, i, ds[k]), s.custom, i) {
        LateToolsFrom(HandleTool(s, i, ds[k]), end, HearTool(h, i, ds[k]), ds, k + 1);
      }
    }
  }

  lemma {:induction false} NothingToClose(s: State, keys: seq<int>)
    requires s.messages.added <= s.messages.done
    ensures CloseMessages(s, keys) == s
    decreases |keys|
  {
    if keys != [] {
      NothingToClose(s, keys[1..]);
    }
  }

  lemma {:induction false} LateFinishTools(s: State, ctx: Context, keys: seq<int>)
    ensures (forall i :: i in keys && Get(s.tools.callIds, i) != "" ==> i in s.tools.done) ==>
        FinishTools(s, ctx, keys) == s
    ensures (exists i :: i in keys && Get(s.tools.callIds, i) != "" && i !in s.tools.done) ==>
              FinishTools(s, ctx, keys).log != s.log
    decreases |keys|
  {
    hide EmitFinal;
    if keys != [] {
      FinalEmits(AssignFuncIndex(s, keys[0]), ctx, keys[0], FuncOutIdx(s, keys[0]));
      if Get(s.tools.callIds, keys[0]) == "" || keys[0] in s.tools.done {
        LateFinishTools(s, ctx, keys[1..]);
        assert forall i :: i in keys <==> i == keys[0] || i in keys[1..];
      }
    }
  }

  lemma {:induction false} FinalEmits(s: State, ctx: Context, i: int, index: nat)
    ensures |EmitFinal(s, ctx, i, index).log| > |s.log|
  {
  }

  lemma {:induction false} LateFinish(s: State, ctx: Context, end: Heard, h: Heard)
    requires Late(s, end, h)
    ensures var mute := forall i :: i in h.calls && h.calls[i].id != "" ==> i in end.announced;
            (mute <==> Finish(s, ctx).log == s.log) && (mute ==> Finish(s, ctx) == s)
  {
    hide FinishTools;
    NothingToClose(s, Sorted(s.messages.added));
    var keys := Sorted(s.tools.callIds.Keys);
    LateFinishTools(s, ctx, keys);
    forall i ensures i in keys && Get(s.tools.callIds, i) != "" <==> i in h.calls && h.calls[i].id != "" {
      assert SameCall(s.tools, h.calls, h.announced, i);
    }
  }

  lemma {:induction false} WordsEmit(s: State, c: int, content: string, reasoning: string)
    requires content != "" || reasoning != ""
    ensures |HandleReasoning(HandleContent(s, c, content), c, reasoning).log| > |s.log|
  {
    hide AnnounceMessage, AddMessagePart, StopReasoning, OpenReasoning;
    if reasoning != "" {
      OpenReasoningOpens(HandleContent(s, c, content), c);
    }
  }

  /** After the end a choice adds no event exactly if it is mute. */
  lemma {:induction false} LateChoice(s: State, ctx: Context, end: Heard, h: Heard, ch: Choice)
    requires Late(s, end, h)
    ensures var s' := Complete(HandleChoice(s, ctx, ch), ctx, [ch]);
            && s.log <= s'.log
            && (MuteChoice(end, h, s.custom, ch) <==> s'.log == s.log)
            && (MuteChoice(end, h, s.custom, ch) ==>
                  Late(s', end, HearLate(h, ch)) && s'.response == s.response && s'.custom == s.custom)
  {
    hide HandleContent, HandleReasoning, Finish, MuteToolsFrom, HandleToolsFrom, HearToolsFrom, SameCalls;
    var s2 := HandleReasoning(HandleContent(s, ch.index, ch.content), ch.index, ch.reasoning);
    if ch.content != "" || ch.reasoning != "" {
      WordsEmit(s, ch.index, ch.content, ch.reasoning);
    } else {
      Speechless(s, ch.index);
      assert s2 == s;
      if ch.tools.Some? {
        LateToolsFrom(s, end, h, ch.tools.value, 0);
        assert HandleTools(s, ch.index, ch.tools) == HandleToolsFrom(s, ch.tools.value, 0);
      }
      var s3 := HandleTools(s, ch.index, ch.tools);
      if ch.finishReason != "" && s3.log == s.log {
        LateFinish(s3, ctx, end, HearLate(h, ch));
      }
    }
  }

  lemma {:induction false} Speechless(s: State, c: int)
    ensures HandleReasoning(HandleContent(s, c, ""), c, "") == s
  {
  }

  /** Nothing may follow `response.completed`. */
  lemma {:induction false} OverBreaks(log: seq<Event>, longer: seq<Event>)
    requires WellFormed(log) && log <= longer && longer != log
    ensures !WellFormed(longer)
  {
    var next := longer[..|log| + 1];
    assert next[..|next| - 1] == log;
    assert Read(next).Broken?;
    BrokenStays(next, longer);
  }
}

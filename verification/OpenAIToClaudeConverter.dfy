/** The OpenAI to Claude converter as an object over bytes: it carries the unfinished line of the
    upstream stream and the state of the message from one network chunk to the next.  Each method
    does what the function of the same name in OpenAIToClaude says. */
module OpenAIToClaudeConverter {
  import opened Options
  import opened ClaudeEvents
  import S = OpenAIToClaude
  import Sse
  import Text

  // ---------------------------------------------------------------- from bytes to items

  /** `valid` says which texts are JSON, `decode` which of them are chunks. */
  datatype Reading = Reading(valid: string -> bool, decode: string -> Option<S.Chunk>)

  function ItemOf(e: Sse.SseEvent, rd: Reading): seq<S.Item> {
    if e.event == "done" then [S.Done]
    else if e.data.None? || rd.decode(e.data.value).None? then []
    else [S.Data(rd.decode(e.data.value).value)]
  }

  function ItemsOf(events: seq<Sse.SseEvent>, rd: Reading): seq<S.Item> {
    if events == [] then [] else ItemOf(events[0], rd) + ItemsOf(events[1..], rd)
  }

  /** One network chunk: the new state and the new buffer. */
  function Transform(s: S.State, buffer: string, chunk: string, rd: Reading, order: S.Order): (S.State, string) {
    var (events, rest) := Sse.Parse(buffer + chunk, rd.valid);
    (S.Run(s, ItemsOf(events, rd), order), rest)
  }

  function TransformAll(s: S.State, buffer: string, chunks: seq<string>, rd: Reading, order: S.Order): S.State
    decreases |chunks|
  {
    if chunks == [] then s
    else
      var (s1, rest) := Transform(s, buffer, chunks[0], rd, order);
      TransformAll(s1, rest, chunks[1..], rd, order)
  }

  lemma {:induction false} RunAppend(s: S.State, a: seq<S.Item>, b: seq<S.Item>, order: S.Order)
    ensures S.Run(s, a + b, order) == S.Run(S.Run(s, a, order), b, order)
    decreases |a|
  {
    hide S.Step;
    if a == [] {
      assert a + b == b;
    } else {
      assert (a + b)[1..] == a[1..] + b;
      RunAppend(S.Step(s, a[0], order), a[1..], b, order);
    }
  }

  // ---------------------------------------------------------------- the object

  class Converter {
    var messageId: string
    var currentIndex: int
    var currentBlockType: S.BlockType
    var toolCalls: map<int, S.ToolState>
    var stopReason: string
    var buffer: string

    /** Every event written so far. */
    var out: seq<Event>

    ghost function View(): S.State
      reads this
    {
      S.State(messageId, currentIndex, currentBlockType, toolCalls, stopReason, out)
    }

    constructor ()
      ensures View() == S.INITIAL_STATE && buffer == ""
    {
      messageId, currentIndex, currentBlockType, toolCalls, stopReason := "", 0, S.NoBlock, map[], "";
      buffer, out := "", [];
    }

    method StopBlock()
      modifies this`out, this`currentIndex, this`currentBlockType
      ensures View() == S.StopBlock(old(View()))
    {
      out := out + [BlockStop(currentIndex)];
      currentIndex := currentIndex + 1;
      currentBlockType := S.NoBlock;
    }

    method HandleReasoning(text: string)
      modifies this`out, this`currentIndex, this`currentBlockType
      ensures View() == S.HandleReasoning(old(View()), text)
    {
      if Text.Trim(text) != "" {
        if currentBlockType == S.InText {
          StopBlock();
        }
        if currentBlockType != S.InThinking {
          out := out + [BlockStart(currentIndex, ThinkingBlock)];
          currentBlockType := S.InThinking;
        }
        out := out + [BlockDelta(currentIndex, ThinkingDelta(text))];
      }
    }

    method HandleContent(text: string)
      modifies this`out, this`currentIndex, this`currentBlockType
      ensures View() == S.HandleContent(old(View()), text)
    {
      if text != "" {
        if currentBlockType == S.InThinking {
          StopBlock();
        }
        if currentBlockType != S.InText {
          out := out + [BlockStart(currentIndex, TextBlock)];
          currentBlockType := S.InText;
        }
        out := out + [BlockDelta(currentIndex, TextDelta(text))];
      }
    }

    method HandleTool(t: S.ToolDelta)
      modifies this`out, this`currentIndex, this`currentBlockType, this`toolCalls
      ensures View() == S.HandleTool(old(View()), t)
    {
      if t.index !in toolCalls {
        if currentBlockType == S.InText || currentBlockType == S.InThinking {
          StopBlock();
        }
        toolCalls := toolCalls[t.index := S.ToolState(t.id, t.name, "", currentIndex)];
        out := out + [BlockStart(currentIndex, ToolUse(t.id, t.name, "{}"))];
        currentIndex := currentIndex + 1;
      } else {
        var tc := toolCalls[t.index];
        if t.id != "" {
          tc := tc.(id := t.id);
        }
        if t.name != "" {
          tc := tc.(name := t.name);
        }
        toolCalls := toolCalls[t.index := tc];
      }
      if t.arguments != "" {
        var tc := toolCalls[t.index];
        toolCalls := toolCalls[t.index := tc.(arguments := tc.arguments + t.arguments)];
        out := out + [BlockDelta(tc.contentIndex, InputJsonDelta(t.arguments))];
      }
    }

    method HandleTools(tools: seq<S.ToolDelta>)
      modifies this`out, this`currentIndex, this`currentBlockType, this`toolCalls
      ensures View() == S.HandleTools(old(View()), tools)
    {
      hide S.HandleTool;
      for k := 0 to |tools|
        invariant S.HandleTools(View(), tools[k..]) == S.HandleTools(old(View()), tools)
      {
        assert tools[k..][0] == tools[k] && tools[k..][1..] == tools[k + 1..];
        HandleTool(tools[k]);
      }
      assert tools[|tools|..] == [];
    }

    method HandleChunk(c: S.Chunk)
      modifies this`messageId, this`out, this`currentIndex, this`currentBlockType, this`toolCalls, this`stopReason
      ensures View() == S.HandleChunk(old(View()), c)
    {
      hide S.HandleReasoning, S.HandleContent, S.HandleTools;
      if |c.choices| == 0 {
        return;
      }
      var choice := c.choices[0];
      if messageId == "" {
        messageId := c.id;
        out := out + [MessageStart(c.id, c.model)];
      }
      if choice.delta.Some? {
        HandleReasoning(choice.delta.value.reasoning);
        HandleContent(choice.delta.value.content);
        HandleTools(choice.delta.value.tools);
      }
      if choice.finishReason != "" {
        stopReason := choice.finishReason;
      }
    }

    /** `keys` is the order in which the range over the tool calls happens to visit them. */
    method CloseTools(keys: seq<int>)
      modifies this`out
      ensures View() == S.CloseTools(old(View()), keys)
    {
      for k := 0 to |keys|
        invariant S.CloseTools(View(), keys[k..]) == S.CloseTools(old(View()), keys)
      {
        assert keys[k..][0] == keys[k] && keys[k..][1..] == keys[k + 1..];
        if keys[k] in toolCalls {
          out := out + [BlockStop(toolCalls[keys[k]].contentIndex)];
        }
      }
      assert keys[|keys|..] == [];
    }

    method HandleFinish(order: S.Order)
      modifies this`out, this`currentIndex, this`currentBlockType, this`toolCalls
      ensures View() == S.Finish(old(View()), order)
    {
      hide S.CloseTools;
      if currentBlockType == S.InText || currentBlockType == S.InThinking {
        StopBlock();
      }
      CloseTools(order(|out|, toolCalls.Keys));
      var reason := "end_turn";
      if stopReason == "length" {
        reason := "max_tokens";
      } else if stopReason == "tool_calls" {
        reason := "tool_use";
      }
      out := out + [MessageDelta(reason)];
      out := out + [MessageStop];
      toolCalls := map[];
    }

    method HandleEvent(e: Sse.SseEvent, rd: Reading, order: S.Order)
      modifies this`messageId, this`out, this`currentIndex, this`currentBlockType, this`toolCalls, this`stopReason
      ensures View() == S.Run(old(View()), ItemOf(e, rd), order)
    {
      hide S.HandleChunk, S.Finish;
      if e.event == "done" {
        if messageId != "" {
          HandleFinish(order);
        }
        OneItem(old(View()), S.Done, order);
      } else if e.data.Some? && rd.decode(e.data.value).Some? {
        HandleChunk(rd.decode(e.data.value).value);
        OneItem(old(View()), S.Data(rd.decode(e.data.value).value), order);
      }
    }

    /** One network chunk; `output` are the events written for it. */
    method TransformChunk(chunk: string, rd: Reading, order: S.Order) returns (output: seq<Event>)
      modifies this
      ensures (View(), buffer) == Transform(old(View()), old(buffer), chunk, rd, order)
      ensures out == old(out) + output
    {
      hide S.Run, ItemOf, Sse.Parse;
      var events, remaining := Sse.ParseSSE(buffer + chunk, rd.valid);
      buffer := remaining;
      var written := |out|;
      for k := 0 to |events|
        invariant buffer == remaining && old(out) <= out
        invariant S.Run(View(), ItemsOf(events[k..], rd), order) == S.Run(old(View()), ItemsOf(events, rd), order)
      {
        assert events[k..][0] == events[k] && events[k..][1..] == events[k + 1..];
        RunAppend(View(), ItemOf(events[k], rd), ItemsOf(events[k + 1..], rd), order);
        RunExtends(View(), ItemOf(events[k], rd), order);
        HandleEvent(events[k], rd, order);
      }
      NoItems(View(), order);
      assert events[|events|..] == [];
      output := out[written..];
    }
  }

  lemma {:induction false} OneItem(s: S.State, item: S.Item, order: S.Order)
    ensures S.Run(s, [item], order) == S.Step(s, item, order)
  {
    hide S.Step;
    assert [item][1..] == [];
  }

  lemma {:induction false} NoItems(s: S.State, order: S.Order)
    ensures S.Run(s, [], order) == s
  {
  }

  lemma {:induction false} RunExtends(s: S.State, items: seq<S.Item>, order: S.Order)
    ensures s.log <= S.Run(s, items, order).log
    decreases |items|
  {
    hide S.Step;
    if items != [] {
      RunExtends(S.Step(s, items[0], order), items[1..], order);
    }
  }

  /** A whole stream, network chunk by network chunk. */
  method ConvertAll(chunks: seq<string>, rd: Reading, order: S.Order) returns (out: seq<Event>)
    ensures out == TransformAll(S.INITIAL_STATE, "", chunks, rd, order).log
  {
    hide Transform;
    var converter := new Converter();
    out := [];
    for k := 0 to |chunks|
      invariant out == converter.out
      invariant TransformAll(converter.View(), converter.buffer, chunks[k..], rd, order)
             == TransformAll(S.INITIAL_STATE, "", chunks, rd, order)
    {
      assert chunks[k..][0] == chunks[k] && chunks[k..][1..] == chunks[k + 1..];
      var output := converter.TransformChunk(chunks[k], rd, order);
      out := out + output;
    }
    assert chunks[|chunks|..] == [];
  }
}

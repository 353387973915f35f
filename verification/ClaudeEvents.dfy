/** The events of a Claude message stream and the grammar they follow: message_start, content
    blocks numbered from 0 that open, receive deltas and stop, one message_delta, message_stop. */
module ClaudeEvents {

  /** The `content_block` of a content_block_start; `input` is JSON. */
  datatype Content = TextBlock | ThinkingBlock | ToolUse(id: string, name: string, input: string)

  datatype Delta = TextDelta(text: string) | ThinkingDelta(thinking: string) | InputJsonDelta(json: string)

  datatype Event =
    | MessageStart(id: string, model: string)
    | BlockStart(index: int, content: Content)
    | BlockDelta(index: int, delta: Delta)
    | BlockStop(index: int)
    | MessageDelta(stopReason: string)
    | MessageStop

  // ---------------------------------------------------------------- the grammar

  /** A block seen so far; `tool` counts the tool blocks before it. */
  datatype Block = Block(content: Content, open: bool, tool: nat)

  /** What a stream says, in order: a tool is named by its rank among the tool blocks. */
  datatype Fragment =
    | Thought(text: string)
    | Spoken(text: string)
    | Called(tool: nat, id: string, name: string, input: string)
    | Arguments(tool: nat, json: string)

  datatype Phase = Before | Body | Closing | Ended

  datatype Reader =
    | Broken
    | Reader(phase: Phase, blocks: seq<Block>, tools: nat, said: seq<Fragment>, stopReason: string)

  const FRESH := Reader(Before, [], 0, [], "")

  predicate Fits(delta: Delta, content: Content) {
    match delta
    case TextDelta(_) => content.TextBlock?
    case ThinkingDelta(_) => content.ThinkingBlock?
    case InputJsonDelta(_) => content.ToolUse?
  }

  function Says(delta: Delta, b: Block): Fragment {
    match delta
    case TextDelta(s) => Spoken(s)
    case ThinkingDelta(s) => Thought(s)
    case InputJsonDelta(s) => Arguments(b.tool, s)
  }

  /** Text next to text, or thought next to thought, belongs in one block. */
  predicate Repeats(blocks: seq<Block>, content: Content) {
    !content.ToolUse? && blocks != [] && blocks[|blocks| - 1].content == content
  }

  function AcceptStart(r: Reader, index: int, content: Content): Reader
    requires r.Reader?
  {
    if r.phase.Body? && index == |r.blocks| && !Repeats(r.blocks, content) then
      var b := Block(content, true, r.tools);
      if content.ToolUse? then
        r.(blocks := r.blocks + [b], tools := r.tools + 1,
           said := r.said + [Called(r.tools, content.id, content.name, content.input)])
      else r.(blocks := r.blocks + [b])
    else Broken
  }

  function AcceptDelta(r: Reader, index: int, delta: Delta): Reader
    requires r.Reader?
  {
    if r.phase.Body? && 0 <= index < |r.blocks| && r.blocks[index].open && Fits(delta, r.blocks[index].content)
    then r.(said := r.said + [Says(delta, r.blocks[index])])
    else Broken
  }

  function AcceptStop(r: Reader, index: int): Reader
    requires r.Reader?
  {
    if r.phase.Body? && 0 <= index < |r.blocks| && r.blocks[index].open
    then r.(blocks := r.blocks[index := r.blocks[index].(open := false)])
    else Broken
  }

  predicate AllClosed(blocks: seq<Block>) {
    forall i :: 0 <= i < |blocks| ==> !blocks[i].open
  }

  function Accept(r: Reader, e: Event): Reader {
    if r.Broken? then Broken
    else match e
      case MessageStart(_, _) => if r.phase.Before? then r.(phase := Body) else Broken
      case BlockStart(i, content) => AcceptStart(r, i, content)
      case BlockDelta(i, delta) => AcceptDelta(r, i, delta)
      case BlockStop(i) => AcceptStop(r, i)
      case MessageDelta(reason) =>
        if r.phase.Body? && AllClosed(r.blocks) then r.(phase := Closing, stopReason := reason) else Broken
      case MessageStop => if r.phase.Closing? then r.(phase := Ended) else Broken
  }

  function Read(log: seq<Event>): Reader {
    if log == [] then FRESH else Accept(Read(log[..|log| - 1]), log[|log| - 1])
  }

  predicate WellFormed(log: seq<Event>) {
    Read(log).Reader? && Read(log).phase.Ended?
  }

  lemma {:induction false} ReadNext(log: seq<Event>, e: Event)
    ensures Read(log + [e]) == Accept(Read(log), e)
  {
    assert (log + [e])[..|log|] == log;
  }

  // ---------------------------------------------------------------- what the grammar amounts to

  /** `MessageStart` or nothing yet, then events that are neither start nor end. */
  ghost predicate Ordered(log: seq<Event>, phase: Phase) {
    && (phase.Before? <==> log == [])
    && (forall k :: 0 <= k < |log| ==> (log[k].MessageStart? <==> k == 0))
    && (forall k :: 0 <= k < |log| ==>
          (log[k].MessageDelta? <==> (phase.Closing? && k == |log| - 1) || (phase.Ended? && k == |log| - 2)))
    && (forall k :: 0 <= k < |log| ==> (log[k].MessageStop? <==> phase.Ended? && k == |log| - 1))
    && (phase.Closing? ==> |log| >= 2)
    && (phase.Ended? ==> |log| >= 3)
  }

  /** Positions in the log of what happens to block `i`. */
  predicate StartsAt(log: seq<Event>, i: int, k: int)
    requires 0 <= k < |log|
  {
    log[k].BlockStart? && log[k].index == i
  }

  predicate StopsAt(log: seq<Event>, i: int, k: int)
    requires 0 <= k < |log|
  {
    log[k].BlockStop? && log[k].index == i
  }

  predicate DeltaAt(log: seq<Event>, i: int, k: int)
    requires 0 <= k < |log|
  {
    log[k].BlockDelta? && log[k].index == i
  }

  /** The block started at `s` and, unless it is still open, stopped at `t`; all it received lies
      between the two. */
  ghost predicate Lived(log: seq<Event>, i: int, b: Block, s: int, t: int) {
    && 0 <= s < t <= |log| && (b.open <==> t == |log|)
    && (forall k :: 0 <= k < |log| ==> (StartsAt(log, i, k) <==> k == s))
    && log[s].BlockStart? && log[s].content == b.content
    && (forall k :: 0 <= k < |log| ==> (StopsAt(log, i, k) <==> k == t))
    && (forall k :: 0 <= k < |log| && DeltaAt(log, i, k) ==> s < k < t && Fits(log[k].delta, b.content))
  }

  ghost predicate LivedAndDied(log: seq<Event>, i: int, b: Block) {
    exists s, t :: t < |log| && Lived(log, i, b, s, t)
  }

  /** Block numbers are those of the blocks. */
  ghost predicate Bounded(log: seq<Event>, n: nat) {
    forall k :: 0 <= k < |log| && (log[k].BlockStart? || log[k].BlockDelta? || log[k].BlockStop?) ==>
        0 <= log[k].index < n
  }

  lemma {:induction false} BoundedNext(log: seq<Event>, e: Event)
    requires Read(log).Reader? && Read(log + [e]).Reader? && Bounded(log, |Read(log).blocks|)
    ensures Bounded(log + [e], |Read(log + [e]).blocks|) && |Read(log).blocks| <= |Read(log + [e]).blocks|
  {
    ReadNext(log, e);
  }

  lemma {:induction false} AllBounded(log: seq<Event>)
    requires Read(log).Reader?
    ensures Bounded(log, |Read(log).blocks|)
    decreases |log|
  {
    if log != [] {
      var before, e := log[..|log| - 1], log[|log| - 1];
      assert log == before + [e];
      AllBounded(before);
      BoundedNext(before, e);
    }
  }

  lemma {:induction false} BlockLife(log: seq<Event>, i: int) returns (s: int, t: int)
    requires Read(log).Reader? && 0 <= i < |Read(log).blocks|
    ensures Lived(log, i, Read(log).blocks[i], s, t)
    decreases |log|
  {
    var before, e := log[..|log| - 1], log[|log| - 1];
    assert log == before + [e];
    ReadNext(before, e);
    var r, r' := Read(before), Read(log);
    if i < |r.blocks| {
      s, t := BlockLife(before, i);
      t := if t < |before| then t else if StopsAt(log, i, |before|) then |before| else |log|;
      LivedNext(before, e, i, s, t);
    } else {
      s, t := |before|, |log|;
      AllBounded(before);
      assert forall k :: 0 <= k < |before| ==> log[k] == before[k];
    }
  }

  /** What one accepted event does to block `i`. */
  lemma {:induction false} BlockNext(r: Reader, e: Event, i: int)
    requires r.Reader? && Accept(r, e).Reader? && 0 <= i < |r.blocks|
    ensures i < |Accept(r, e).blocks|
    ensures var b, b' := r.blocks[i], Accept(r, e).blocks[i];
            && b'.content == b.content
            && (b'.open <==> b.open && !(e.BlockStop? && e.index == i))
            && !(e.BlockStart? && e.index == i)
            && (e.BlockStop? && e.index == i ==> b.open)
            && (e.BlockDelta? && e.index == i ==> b.open && Fits(e.delta, b.content))
  {
  }

  lemma {:induction false} LivedNext(before: seq<Event>, e: Event, i: int, s: int, t: int)
    requires Read(before).Reader? && Read(before + [e]).Reader? && 0 <= i < |Read(before).blocks|
    requires Lived(before, i, Read(before).blocks[i], s, if t < |before| then t else |before|)
    requires t < |before| || (t == |before| && StopsAt(before + [e], i, |before|))
          || (t == |before| + 1 && !StopsAt(before + [e], i, |before|))
    ensures i < |Read(before + [e]).blocks| && Lived(before + [e], i, Read(before + [e]).blocks[i], s, t)
  {
    hide Fits, Read, Accept;
    var log := before + [e];
    ReadNext(before, e);
    BlockNext(Read(before), e, i);
    var b, b' := Read(before).blocks[i], Read(log).blocks[i];
    assert log[|before|] == e;
    forall k | 0 <= k < |before|
      ensures log[k] == before[k]
      ensures StartsAt(log, i, k) == StartsAt(before, i, k)
      ensures StopsAt(log, i, k) == StopsAt(before, i, k)
      ensures DeltaAt(log, i, k) == DeltaAt(before, i, k)
    {
    }
    assert forall k :: 0 <= k < |log| ==> (StartsAt(log, i, k) <==> k == s);
    assert forall k :: 0 <= k < |log| ==> (StopsAt(log, i, k) <==> k == t);
    assert forall k :: 0 <= k < |log| && DeltaAt(log, i, k) ==> s < k < t;
    assert b'.open <==> t == |log|;
  }

  lemma {:induction false} OrderNext(before: seq<Event>, e: Event)
    requires Read(before).Reader? && Accept(Read(before), e).Reader? && Ordered(before, Read(before).phase)
    ensures Ordered(before + [e], Accept(Read(before), e).phase)
  {
    var log, phase, phase' := before + [e], Read(before).phase, Accept(Read(before), e).phase;
    assert forall k :: 0 <= k < |before| ==> log[k] == before[k];
    assert log[|before|] == e;
    assert phase'.Before? <==> log == [];
    assert e.MessageStart? <==> before == [];
    assert e.MessageDelta? <==> phase'.Closing?;
    assert e.MessageStop? <==> phase'.Ended?;
    assert phase'.Closing? ==> phase.Body?;
    assert phase'.Ended? ==> phase.Closing?;
    assert phase'.Body? ==> phase.Before? || phase.Body?;
  }

  lemma {:induction false} PhaseOrder(log: seq<Event>)
    requires Read(log).Reader?
    ensures Ordered(log, Read(log).phase)
    ensures Read(log).phase.Closing? || Read(log).phase.Ended? ==> AllClosed(Read(log).blocks)
    decreases |log|
  {
    if log != [] {
      var before, e := log[..|log| - 1], log[|log| - 1];
      assert log == before + [e];
      ReadNext(before, e);
      PhaseOrder(before);
      OrderNext(before, e);
    }
  }

  /** A well-formed log starts with its only message_start and ends with its only message_delta
      and its only message_stop; its block events are about the blocks 0, 1, 2, ... in the order
      of their starts; each block starts once and later stops once, and its deltas, all of its
      kind, come in between. */
  lemma {:induction false} WellFormedFacts(log: seq<Event>)
    requires WellFormed(log)
    ensures Ordered(log, Ended) && Bounded(log, |Read(log).blocks|)
    ensures forall i :: 0 <= i < |Read(log).blocks| ==> LivedAndDied(log, i, Read(log).blocks[i])
  {
    PhaseOrder(log);
    AllBounded(log);
    forall i | 0 <= i < |Read(log).blocks|
      ensures LivedAndDied(log, i, Read(log).blocks[i])
    {
      var s, t := BlockLife(log, i);
      assert !Read(log).blocks[i].open;
      assert t < |log| && Lived(log, i, Read(log).blocks[i], s, t);
    }
  }

  /** Of two blocks the one with the smaller number starts first. */
  lemma {:induction false} StartsInOrder(log: seq<Event>, k: int, l: int)
    requires Read(log).Reader? && 0 <= k < l < |log| && log[k].BlockStart? && log[l].BlockStart?
    ensures log[k].index < log[l].index
    decreases |log|
  {
    var before, e := log[..|log| - 1], log[|log| - 1];
    assert log == before + [e];
    ReadNext(before, e);
    if l < |before| {
      StartsInOrder(before, k, l);
    } else {
      AllBounded(before);
      assert before[k] == log[k];
    }
  }

  // ---------------------------------------------------------------- continuing a log

  lemma {:induction false} BrokenStays(log: seq<Event>, more: seq<Event>)
    requires Read(log).Broken?
    ensures Read(log + more).Broken?
    decreases |more|
  {
    if more == [] {
      assert log + more == log;
    } else {
      var n := |more| - 1;
      assert log + more == (log + more[..n]) + [more[n]];
      BrokenStays(log, more[..n]);
      ReadNext(log + more[..n], more[n]);
    }
  }

  /** Nothing may follow message_stop. */
  lemma {:induction false} EndedStops(log: seq<Event>, more: seq<Event>)
    requires WellFormed(log) && more != []
    ensures Read(log + more).Broken?
  {
    ReadNext(log, more[0]);
    assert log + more == (log + [more[0]]) + more[1..];
    BrokenStays(log + [more[0]], more[1..]);
  }

  // ---------------------------------------------------------------- the parts of what was said

  function SpokenText(said: seq<Fragment>): string {
    if said == [] then ""
    else
      var f := said[|said| - 1];
      SpokenText(said[..|said| - 1]) + (if f.Spoken? then f.text else "")
  }

  function ThoughtText(said: seq<Fragment>): string {
    if said == [] then ""
    else
      var f := said[|said| - 1];
      ThoughtText(said[..|said| - 1]) + (if f.Thought? then f.text else "")
  }

  function ArgumentsOf(said: seq<Fragment>, tool: nat): string {
    if said == [] then ""
    else
      var f := said[|said| - 1];
      ArgumentsOf(said[..|said| - 1], tool) + (if f.Arguments? && f.tool == tool then f.json else "")
  }
}

/** What the grammar of the Responses events amounts to, said without the grammar: counts and
    positions of events in the log. */
module ResponsesFacts {
  import opened ResponsesEvents

  function IndicesAdded(log: seq<Event>): seq<nat> {
    if log == [] then []
    else
      var before, last := IndicesAdded(log[..|log| - 1]), log[|log| - 1].body;
      if last.ItemAdded? then before + [last.index] else before
  }

  function TimesDone(log: seq<Event>, index: nat): nat {
    if log == [] then 0
    else
      var last := log[|log| - 1].body;
      TimesDone(log[..|log| - 1], index) + (if last.ItemDone? && last.index == index then 1 else 0)
  }

  /** The deltas sent for one output index, joined. */
  function Joined(log: seq<Event>, index: nat): string {
    if log == [] then ""
    else
      var before, last := Joined(log[..|log| - 1], index), log[|log| - 1].body;
      if last.Delta? && last.index == index then before + last.delta else before
  }

  function TimesCompleted(log: seq<Event>): nat {
    if log == [] then 0
    else TimesCompleted(log[..|log| - 1]) + (if log[|log| - 1].body.Completed? then 1 else 0)
  }

  ghost predicate Numbered(log: seq<Event>) {
    forall k :: 0 <= k < |log| ==> log[k].sequenceNumber == k + 1
  }

  function Upto(n: nat): seq<nat> {
    seq(n, i requires 0 <= i < n => i)
  }

  /** What the log so far says about the items. */
  ghost predicate Tally(log: seq<Event>, g: Grammar)
    requires g.Grammar?
  {
    && g.count == |log|
    && IndicesAdded(log) == Upto(|g.items|)
    && (forall i: nat :: TimesDone(log, i) == (if i < |g.items| && g.items[i].stage.Closed? then 1 else 0))
    && (forall i: nat :: Joined(log, i) == (if i < |g.items| then g.items[i].text else ""))
    && TimesCompleted(log) == (if g.phase.Over? then 1 else 0)
  }

  lemma {:induction false} UptoNext(n: nat)
    ensures Upto(n + 1) == Upto(n) + [n]
  {
  }

  lemma {:induction false} UptoIn(n: nat)
    ensures forall i: nat :: i in Upto(n) <==> i < n
  {
    forall i: nat | i < n ensures i in Upto(n) {
      assert Upto(n)[i] == i;
    }
  }

  /** What one accepted event does to the items. */
  predicate Shape(g: Grammar, body: Body, g': Grammar)
    requires g.Grammar? && g'.Grammar?
  {
    && g'.count == g.count + 1
    && (g'.phase.Over? <==> body.Completed?)
    && match body
       case ItemAdded(i, item) => i == |g.items| && g'.items == g.items + [Live(item, "", FirstStage(item))]
       case Delta(_, _, i, delta) =>
         i < |g.items| && !g.items[i].stage.Closed?
         && g'.items == g.items[i := g.items[i].(text := g.items[i].text + delta)]
       case ItemDone(i, item) =>
         i < |g.items| && !g.items[i].stage.Closed? && Finishes(g.items[i], item)
         && g'.items == g.items[i := g.items[i].(stage := Closed)]
       case _ =>
         |g'.items| == |g.items|
         && forall k :: 0 <= k < |g.items| ==>
              g'.items[k].text == g.items[k].text && g'.items[k].item == g.items[k].item
              && (g'.items[k].stage.Closed? <==> g.items[k].stage.Closed?)
  }

  lemma {:induction false} AcceptShape(g: Grammar, e: Event)
    requires g.Grammar? && Accept(g, e).Grammar?
    ensures !g.phase.Over? && Shape(g, e.body, Accept(g, e))
    ensures e.body.Completed? ==> forall k :: 0 <= k < |g.items| ==> g.items[k].stage.Closed?
  {
  }

  lemma {:induction false} StepDone(log: seq<Event>, g: Grammar, g': Grammar, i: nat)
    requires log != [] && g.Grammar? && g'.Grammar? && Shape(g, log[|log| - 1].body, g')
    requires TimesDone(log[..|log| - 1], i) == (if i < |g.items| && g.items[i].stage.Closed? then 1 else 0)
    requires Joined(log[..|log| - 1], i) == (if i < |g.items| then g.items[i].text else "")
    ensures TimesDone(log, i) == (if i < |g'.items| && g'.items[i].stage.Closed? then 1 else 0)
    ensures Joined(log, i) == (if i < |g'.items| then g'.items[i].text else "")
  {
  }

  lemma {:induction false} StepTally(log: seq<Event>)
    requires log != [] && Read(log).Grammar?
    requires Tally(log[..|log| - 1], Read(log[..|log| - 1]))
    ensures Tally(log, Read(log))
  {
    hide Accept, Shape;
    var before, e := log[..|log| - 1], log[|log| - 1];
    var g, g' := Read(before), Read(log);
    PrefixReads(log, |before|);
    AcceptShape(g, e);
    forall i: nat
      ensures TimesDone(log, i) == (if i < |g'.items| && g'.items[i].stage.Closed? then 1 else 0)
      ensures Joined(log, i) == (if i < |g'.items| then g'.items[i].text else "")
    {
      StepDone(log, g, g', i);
    }
    StepIndices(log, g, g');
  }

  lemma {:induction false} StepIndices(log: seq<Event>, g: Grammar, g': Grammar)
    requires log != [] && g.Grammar? && g'.Grammar? && Shape(g, log[|log| - 1].body, g')
    requires g.count == |log| - 1 && !g.phase.Over?
    requires IndicesAdded(log[..|log| - 1]) == Upto(|g.items|) && TimesCompleted(log[..|log| - 1]) == 0
    ensures IndicesAdded(log) == Upto(|g'.items|) && g'.count == |log|
    ensures TimesCompleted(log) == (if g'.phase.Over? then 1 else 0)
  {
    UptoNext(|g.items|);
  }

  lemma {:induction false} GrammarTally(log: seq<Event>)
    requires Read(log).Grammar?
    ensures Tally(log, Read(log)) && Numbered(log)
    decreases |log|
  {
    if log != [] {
      var before := log[..|log| - 1];
      GrammarTally(before);
      StepTally(log);
      forall k | 0 <= k < |log| ensures log[k].sequenceNumber == k + 1 {
        if k < |before| {
          assert before[k] == log[k];
        }
      }
    }
  }

  lemma {:induction false} PrefixReads(log: seq<Event>, k: nat)
    requires k <= |log| && Read(log).Grammar?
    ensures Read(log[..k]).Grammar?
    decreases |log|
  {
    if k < |log| {
      assert log[..|log| - 1][..k] == log[..k];
      PrefixReads(log[..|log| - 1], k);
    } else {
      assert log[..k] == log;
    }
  }

  /** The text that closes an item whose deltas are `text`. */
  predicate ClosesWith(item: Item, text: string) {
    match item
    case ReasoningItem(_, final) => final == text
    case MessageItem(_, final) => final == text
    case FunctionItem(_, _, _, final) => final == FinalArguments(text)
    case CustomItem(_, _, _, _) => text == ""
  }

  /** Where the event at position `k` may stand, given the events before it. */
  ghost predicate InPlace(before: seq<Event>, body: Body) {
    match body
    case Delta(_, _, i, _) => i in IndicesAdded(before) && TimesDone(before, i) == 0
    case ItemDone(i, item) => i in IndicesAdded(before) && TimesDone(before, i) == 0
        && ClosesWith(item, Joined(before, i))
    case Completed(_, _) => TimesCompleted(before) == 0
        && forall i :: i in IndicesAdded(before) ==> TimesDone(before, i) == 1
    case _ => TimesCompleted(before) == 0
  }

  /** In a log the grammar accepts every event is in its place: deltas fall between an item's
      announcement and its end, an item ends once and with the text of its deltas, and the
      stream completes after all its items have ended. */
  lemma {:induction false} EventInPlace(log: seq<Event>, k: nat)
    requires k < |log| && Read(log).Grammar?
    ensures InPlace(log[..k], log[k].body)
  {
    hide Accept, Tally;
    var before := log[..k];
    PrefixReads(log, k);
    PrefixReads(log, k + 1);
    assert log[..k + 1][..k] == before && log[..k + 1][k] == log[k];
    GrammarTally(before);
    AcceptShape(Read(before), log[k]);
    CustomSilent(before);
    ShapeInPlace(before, Read(before), log[k].body, Accept(Read(before), log[k]));
  }

  lemma {:induction false} ShapeInPlace(before: seq<Event>, g: Grammar, body: Body, g': Grammar)
    requires g.Grammar? && g'.Grammar? && Shape(g, body, g') && Tally(before, g) && !g.phase.Over?
    requires body.Completed? ==> forall k :: 0 <= k < |g.items| ==> g.items[k].stage.Closed?
    requires forall k :: 0 <= k < |g.items| && g.items[k].item.CustomItem? ==> g.items[k].text == ""
    ensures InPlace(before, body)
  {
    hide IndicesAdded, TimesDone, Joined, TimesCompleted;
    UptoIn(|g.items|);
  }

  /** Custom tool calls never carry deltas. */
  lemma {:induction false} CustomSilent(log: seq<Event>)
    requires Read(log).Grammar?
    ensures forall k :: 0 <= k < |Read(log).items| && Read(log).items[k].item.CustomItem? ==>
              Read(log).items[k].text == "" && (Read(log).items[k].stage.PartFinal? || Read(log).items[k].stage.Closed?)
    decreases |log|
  {
    if log != [] {
      CustomSilent(log[..|log| - 1]);
    }
  }

  /** A well-formed log: numbered from 1, every announced item ended exactly once, and
      `response.completed` once, as the last event. */
  lemma {:induction false} WellFormedLog(log: seq<Event>)
    requires WellFormed(log)
    ensures Numbered(log) && IndicesAdded(log) == Upto(|ItemsOf(log)|)
    ensures forall i: nat :: TimesDone(log, i) == (if i in IndicesAdded(log) then 1 else 0)
    ensures TimesCompleted(log) == 1 && log[|log| - 1].body.Completed?
  {
    GrammarTally(log);
    var last := |log| - 1;
    EventInPlace(log, last);
    GrammarTally(log[..last]);
    EndsClosed(log);
    var n := |ItemsOf(log)|;
    UptoIn(n);
  }

  lemma {:induction false} EndsClosed(log: seq<Event>)
    requires WellFormed(log)
    ensures |log| > 0 && log[|log| - 1].body.Completed?
    ensures forall k :: 0 <= k < |ItemsOf(log)| ==> ItemsOf(log)[k].stage.Closed?
  {
  }
}

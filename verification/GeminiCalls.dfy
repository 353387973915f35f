/** Gemini contents have no call ids; the Codex request needs them.  The queue of unanswered calls in
    internal/converter/gemini_to_codex.go. */
module GeminiCalls {
  import opened Options
  import opened Decimal
  import ToolNames

  datatype Call = Call(name: string, args: string)

  /** A part with a call hides a response in the same part. */
  datatype Part = Part(text: string, call: Option<Call>, response: Option<string>)

  datatype Content = Content(role: string, parts: seq<Part>)

  datatype Item =
    | FunctionCall(name: string, callId: string, arguments: string)
    | FunctionOutput(callId: string, output: string)
    | Message(role: string, texts: seq<string>)

  datatype State = State(items: seq<Item>, pending: seq<string>, counter: nat)

  const START := State([], [], 0)

  function CallId(n: nat): string {
    "call_" + Itoa(n)
  }

  function ShortName(short: map<string, string>, name: string): string {
    if name in short then short[name] else ToolNames.Shorten(name)
  }

  function HandleCall(s: State, c: Call, short: map<string, string>): State {
    var id := CallId(s.counter + 1);
    State(s.items + [FunctionCall(ShortName(short, c.name), id, c.args)], s.pending + [id], s.counter + 1)
  }

  function HandleResponse(s: State, output: string): State {
    if s.pending != [] then s.(items := s.items + [FunctionOutput(s.pending[0], output)], pending := s.pending[1..])
    else s.(items := s.items + [FunctionOutput(CallId(s.counter + 1), output)], counter := s.counter + 1)
  }

  function HandlePart(s: State, p: Part, short: map<string, string>): State {
    if p.call.Some? then HandleCall(s, p.call.value, short)
    else if p.response.Some? then HandleResponse(s, p.response.value)
    else s
  }

  function HandleParts(s: State, parts: seq<Part>, short: map<string, string>): State
    decreases |parts|
  {
    if parts == [] then s else HandleParts(HandlePart(s, parts[0], short), parts[1..], short)
  }

  function Texts(parts: seq<Part>): seq<string> {
    if parts == [] then []
    else Texts(parts[..|parts| - 1]) + (if parts[|parts| - 1].text != "" then [parts[|parts| - 1].text] else [])
  }

  function Role(role: string): string {
    if role == "model" then "assistant" else "user"
  }

  function HandleContent(s: State, c: Content, short: map<string, string>): State {
    var s1 := HandleParts(s, c.parts, short);
    if Texts(c.parts) == [] then s1 else s1.(items := s1.items + [Message(Role(c.role), Texts(c.parts))])
  }

  function HandleContents(s: State, contents: seq<Content>, short: map<string, string>): State
    decreases |contents|
  {
    if contents == [] then s else HandleContents(HandleContent(s, contents[0], short), contents[1..], short)
  }

  /** The input items of the Codex request. */
  function InputItems(contents: seq<Content>, short: map<string, string>): seq<Item> {
    HandleContents(START, contents, short).items
  }

  method Convert(contents: seq<Content>, short: map<string, string>) returns (items: seq<Item>)
    ensures items == InputItems(contents, short)
  {
    items := [];
    var pending: seq<string>, counter: nat := [], 0;
    for i := 0 to |contents|
      invariant HandleContents(State(items, pending, counter), contents[i..], short)
          == HandleContents(START, contents, short)
    {
      assert contents[i..][0] == contents[i] && contents[i..][1..] == contents[i + 1..];
      var parts := contents[i].parts;
      var texts := [];
      ghost var before := State(items, pending, counter);
      for j := 0 to |parts|
        invariant texts == Texts(parts[..j])
        invariant HandleParts(State(items, pending, counter), parts[j..], short) == HandleParts(before, parts, short)
      {
        var part := parts[j];
        assert parts[j..][0] == part && parts[j..][1..] == parts[j + 1..];
        assert parts[..j + 1][..j] == parts[..j];
        if part.text != "" {
          texts := texts + [part.text];
        }
        if part.call.Some? {
          counter := counter + 1;
          var callId := CallId(counter);
          pending := pending + [callId];
          items := items + [FunctionCall(ShortName(short, part.call.value.name), callId, part.call.value.args)];
        } else if part.response.Some? {
          var callId: string;
          if |pending| > 0 {
            callId := pending[0];
            pending := pending[1..];
          } else {
            counter := counter + 1;
            callId := CallId(counter);
          }
          items := items + [FunctionOutput(callId, part.response.value)];
        }
      }
      assert parts[..|parts|] == parts && parts[|parts|..] == [];
      if |texts| > 0 {
        items := items + [Message(Role(contents[i].role), texts)];
      }
    }
    assert contents[|contents|..] == [];
  }

  // ---------------------------------------------------------------- which ids

  /** The ids of the calls, in order. */
  function Calls(items: seq<Item>): seq<string> {
    if items == [] then []
    else
      var last := items[|items| - 1];
      Calls(items[..|items| - 1]) + (if last.FunctionCall? then [last.callId] else [])
  }

  function Outputs(items: seq<Item>): seq<string> {
    if items == [] then []
    else
      var last := items[|items| - 1];
      Outputs(items[..|items| - 1]) + (if last.FunctionOutput? then [last.callId] else [])
  }

  function Except(ids: seq<string>, others: seq<string>): seq<string> {
    if ids == [] then []
    else Except(ids[..|ids| - 1], others) + (if ids[|ids| - 1] in others then [] else [ids[|ids| - 1]])
  }

  /** The calls without an output, oldest first. */
  function Unanswered(items: seq<Item>): seq<string> {
    Except(Calls(items), Outputs(items))
  }

  ghost predicate Distinct(ids: seq<string>) {
    forall i, j :: 0 <= i < j < |ids| ==> ids[i] != ids[j]
  }

  /** An output answers the oldest unanswered call before it; without one its id is new. */
  ghost predicate AnswersOldest(items: seq<Item>, k: nat)
    requires k < |items| && items[k].FunctionOutput?
  {
    var before := items[..k];
    if Unanswered(before) != [] then items[k].callId == Unanswered(before)[0]
    else items[k].callId !in Calls(before) && items[k].callId !in Outputs(before)
  }

  ghost predicate InOrder(items: seq<Item>) {
    && Distinct(Calls(items)) && Distinct(Outputs(items))
    && forall k :: 0 <= k < |items| && items[k].FunctionOutput? ==> AnswersOldest(items, k)
  }

  // ---------------------------------------------------------------- the queue

  predicate Issued(id: string, counter: nat) {
    exists n: nat :: 1 <= n <= counter && id == CallId(n)
  }

  ghost predicate Queue(s: State) {
    && InOrder(s.items) && s.pending == Unanswered(s.items)
    && (forall id :: id in Calls(s.items) || id in Outputs(s.items) ==> Issued(id, s.counter))
  }

  lemma {:induction false} FreshId(counter: nat)
    ensures !Issued(CallId(counter + 1), counter)
  {
    forall n: nat | 1 <= n <= counter ensures CallId(n) != CallId(counter + 1) {
      assert CallId(n)[5..] == Itoa(n) && CallId(counter + 1)[5..] == Itoa(counter + 1);
      if Itoa(n) == Itoa(counter + 1) {
        ItoaInjective(n, counter + 1);
      }
    }
  }

  lemma {:induction false} ItemsNext(items: seq<Item>, last: Item)
    ensures Calls(items + [last]) == Calls(items) + (if last.FunctionCall? then [last.callId] else [])
    ensures Outputs(items + [last]) == Outputs(items) + (if last.FunctionOutput? then [last.callId] else [])
  {
    assert (items + [last])[..|items|] == items;
  }

  /** Older outputs keep their place. */
  lemma {:induction false} OrderNext(items: seq<Item>, last: Item)
    requires InOrder(items)
    requires Distinct(Calls(items + [last])) && Distinct(Outputs(items + [last]))
    requires last.FunctionOutput? ==> AnswersOldest(items + [last], |items|)
    ensures InOrder(items + [last])
  {
    hide Unanswered, Calls, Outputs;
    var all := items + [last];
    forall k | 0 <= k < |all| && all[k].FunctionOutput? ensures AnswersOldest(all, k) {
      if k < |items| {
        assert all[..k] == items[..k];
        assert AnswersOldest(items, k);
      }
    }
  }

  lemma {:induction false} ExceptNone(ids: seq<string>, others: seq<string>)
    ensures forall id :: id in Except(ids, others) <==> id in ids && id !in others
    decreases |ids|
  {
    if ids != [] {
      ExceptNone(ids[..|ids| - 1], others);
      assert ids == ids[..|ids| - 1] + [ids[|ids| - 1]];
    }
  }

  /** Leaving out one more, which is not among them, changes nothing. */
  lemma {:induction false} ExceptOther(ids: seq<string>, others: seq<string>, x: string)
    requires x !in ids
    ensures Except(ids, others + [x]) == Except(ids, others)
    decreases |ids|
  {
    if ids != [] {
      assert ids[|ids| - 1] in ids;
      assert forall id :: id in ids[..|ids| - 1] ==> id in ids;
      ExceptOther(ids[..|ids| - 1], others, x);
    }
  }

  /** Leaving out the first of the distinct rest. */
  lemma {:induction false} ExceptHead(ids: seq<string>, others: seq<string>)
    requires Distinct(ids) && Except(ids, others) != []
    ensures Except(ids, others + [Except(ids, others)[0]]) == Except(ids, others)[1..]
    decreases |ids|
  {
    hide Distinct;
    var n := |ids| - 1;
    var front, last := ids[..n], ids[n];
    DistinctFront(ids);
    var rest, kept := Except(front, others), if last in others then [] else [last];
    assert Except(ids, others) == rest + kept;
    ExceptNone(front, others);
    if rest == [] {
      ExceptOther(front, others, last);
    } else {
      ExceptHead(front, others);
      var head := rest[0];
      assert head in rest && head != last;
      assert (rest + kept)[1..] == rest[1..] + kept;
      assert last in others + [head] <==> last in others;
    }
  }

  lemma {:induction false} DistinctFront(ids: seq<string>)
    requires ids != [] && Distinct(ids)
    ensures Distinct(ids[..|ids| - 1]) && ids[|ids| - 1] !in ids[..|ids| - 1]
  {
  }

  lemma {:induction false} CallsDistinctNext(ids: seq<string>, x: string)
    requires Distinct(ids) && x !in ids
    ensures Distinct(ids + [x])
  {
    assert forall i :: 0 <= i < |ids| ==> ids[i] in ids;
  }

  lemma {:induction false} CallKeepsQueue(s: State, c: Call, short: map<string, string>)
    requires Queue(s)
    ensures Queue(HandleCall(s, c, short))
  {
    hide Calls, Outputs, Except, CallId;
    var id := CallId(s.counter + 1);
    var item := FunctionCall(ShortName(short, c.name), id, c.args);
    FreshId(s.counter);
    ItemsNext(s.items, item);
    CallsDistinctNext(Calls(s.items), id);
    assert Outputs(s.items) + [] == Outputs(s.items);
    OrderNext(s.items, item);
    ExceptNext(Calls(s.items), id, Outputs(s.items));
    forall x | x in Calls(s.items + [item]) || x in Outputs(s.items + [item]) ensures Issued(x, s.counter + 1) {
      IssuedLater(x, s.counter);
    }
  }

  lemma {:induction false} ExceptNext(ids: seq<string>, x: string, others: seq<string>)
    requires x !in others
    ensures Except(ids + [x], others) == Except(ids, others) + [x]
  {
    assert (ids + [x])[..|ids|] == ids;
  }

  lemma {:induction false} IssuedLater(x: string, counter: nat)
    ensures Issued(x, counter) || x == CallId(counter + 1) ==> Issued(x, counter + 1)
  {
  }

  lemma {:induction false} ResponseKeepsQueue(s: State, output: string)
    requires Queue(s)
    ensures Queue(HandleResponse(s, output))
  {
    hide Calls, Outputs, Except, CallId;
    var next := CallId(s.counter + 1);
    var id := if s.pending != [] then s.pending[0] else next;
    var item := FunctionOutput(id, output);
    FreshId(s.counter);
    ItemsNext(s.items, item);
    ExceptNone(Calls(s.items), Outputs(s.items));
    assert s.pending != [] ==> id in s.pending;
    CallsDistinctNext(Outputs(s.items), id);
    assert Calls(s.items) + [] == Calls(s.items);
    assert (s.items + [item])[..|s.items|] == s.items;
    OrderNext(s.items, item);
    if s.pending != [] {
      ExceptHead(Calls(s.items), Outputs(s.items));
    } else {
      ExceptOther(Calls(s.items), Outputs(s.items), next);
    }
    forall x | x in Calls(s.items + [item]) || x in Outputs(s.items + [item])
        ensures Issued(x, HandleResponse(s, output).counter) {
      IssuedLater(x, s.counter);
    }
  }

  lemma {:induction false} MessageKeepsQueue(s: State, role: string, texts: seq<string>)
    requires Queue(s)
    ensures Queue(s.(items := s.items + [Message(role, texts)]))
  {
    hide Calls, Outputs, Except;
    var item := Message(role, texts);
    ItemsNext(s.items, item);
    assert Calls(s.items) + [] == Calls(s.items) && Outputs(s.items) + [] == Outputs(s.items);
    OrderNext(s.items, item);
  }

  lemma {:induction false} PartsKeepQueue(s: State, parts: seq<Part>, short: map<string, string>)
    requires Queue(s)
    ensures Queue(HandleParts(s, parts, short))
    decreases |parts|
  {
    hide Queue, HandleCall, HandleResponse;
    if parts != [] {
      var p := parts[0];
      if p.call.Some? {
        CallKeepsQueue(s, p.call.value, short);
      } else if p.response.Some? {
        ResponseKeepsQueue(s, p.response.value);
      }
      PartsKeepQueue(HandlePart(s, p, short), parts[1..], short);
    }
  }

  lemma {:induction false} ContentsKeepQueue(s: State, contents: seq<Content>, short: map<string, string>)
    requires Queue(s)
    ensures Queue(HandleContents(s, contents, short))
    decreases |contents|
  {
    hide Queue, HandleParts, Texts;
    if contents != [] {
      var c := contents[0];
      PartsKeepQueue(s, c.parts, short);
      MessageKeepsQueue(HandleParts(s, c.parts, short), Role(c.role), Texts(c.parts));
      ContentsKeepQueue(HandleContent(s, c, short), contents[1..], short);
    }
  }

  /** For every list of contents: call ids are distinct, no two outputs share an id, and every
      output answers the oldest call that has no output yet, or has an id of its own. */
  lemma {:induction false} CallsAnsweredInOrder(contents: seq<Content>, short: map<string, string>)
    ensures InOrder(InputItems(contents, short))
  {
    assert Queue(START);
    ContentsKeepQueue(START, contents, short);
  }

  // ---------------------------------------------------------------- what is sent

  /** An item without its id. */
  function Anonymous(item: Item): Item {
    if item.Message? then item else item.(callId := "")
  }

  function AllAnonymous(items: seq<Item>): seq<Item> {
    seq(|items|, k requires 0 <= k < |items| => Anonymous(items[k]))
  }

  /** The calls and responses of the parts, in order; a part with a call has no response. */
  function PartItems(parts: seq<Part>, short: map<string, string>): seq<Item> {
    if parts == [] then []
    else
      (match parts[0]
       case Part(_, Some(Call(name, args)), _) =>
         [FunctionCall(if name in short then short[name] else ToolNames.Shorten(name), "", args)]
       case Part(_, None, Some(output)) => [FunctionOutput("", output)]
       case Part(_, None, None) => [])
      + PartItems(parts[1..], short)
  }

  function Words(parts: seq<Part>): seq<string> {
    if parts == [] then [] else (if parts[0].text == "" then [] else [parts[0].text]) + Words(parts[1..])
  }

  /** The client's conversation as items: the model speaks as the assistant, everyone else as the user. */
  function Conversation(contents: seq<Content>, short: map<string, string>): seq<Item> {
    if contents == [] then []
    else
      var c := contents[0];
      PartItems(c.parts, short)
      + (if Words(c.parts) == [] then []
         else [Message(if c.role == "model" then "assistant" else "user", Words(c.parts))])
      + Conversation(contents[1..], short)
  }

  lemma {:induction false} AnonymousNext(items: seq<Item>, last: Item)
    ensures AllAnonymous(items + [last]) == AllAnonymous(items) + [Anonymous(last)]
  {
  }

  lemma {:induction false} PartSent(s: State, p: Part, short: map<string, string>)
    ensures AllAnonymous(HandlePart(s, p, short).items) == AllAnonymous(s.items) + PartItems([p], short)
  {
    assert [p][1..] == [] && PartItems([], short) == [];
    if p.call.Some? {
      var call := p.call.value;
      AnonymousNext(s.items, FunctionCall(ShortName(short, call.name), CallId(s.counter + 1), call.args));
    } else if p.response.Some? {
      var id := if s.pending != [] then s.pending[0] else CallId(s.counter + 1);
      AnonymousNext(s.items, FunctionOutput(id, p.response.value));
    }
  }

  lemma {:induction false} PartsSent(s: State, parts: seq<Part>, short: map<string, string>)
    ensures AllAnonymous(HandleParts(s, parts, short).items) == AllAnonymous(s.items) + PartItems(parts, short)
    decreases |parts|
  {
    hide HandlePart, AllAnonymous;
    if parts != [] {
      PartSent(s, parts[0], short);
      PartsSent(HandlePart(s, parts[0], short), parts[1..], short);
      assert [parts[0]][1..] == [] && PartItems([], short) == [];
    }
  }

  lemma {:induction false} TextsAreWords(parts: seq<Part>)
    ensures Texts(parts) == Words(parts)
    decreases |parts|
  {
    if parts != [] {
      var n := |parts| - 1;
      TextsAreWords(parts[..n]);
      WordsNext(parts[..n], parts[n]);
      assert parts[..n] + [parts[n]] == parts;
    }
  }

  lemma {:induction false} WordsNext(parts: seq<Part>, last: Part)
    ensures Words(parts + [last]) == Words(parts) + (if last.text == "" then [] else [last.text])
    decreases |parts|
  {
    if parts == [] {
      assert [last][1..] == [];
    } else {
      assert (parts + [last])[1..] == parts[1..] + [last];
      WordsNext(parts[1..], last);
    }
  }

  lemma {:induction false} ContentsSent(s: State, contents: seq<Content>, short: map<string, string>)
    ensures AllAnonymous(HandleContents(s, contents, short).items)
         == AllAnonymous(s.items) + Conversation(contents, short)
    decreases |contents|
  {
    hide HandleParts, PartItems, Texts, Words, AllAnonymous;
    if contents != [] {
      var c := contents[0];
      var s1 := HandleParts(s, c.parts, short);
      PartsSent(s, c.parts, short);
      TextsAreWords(c.parts);
      AnonymousNext(s1.items, Message(Role(c.role), Texts(c.parts)));
      ContentsSent(HandleContent(s, c, short), contents[1..], short);
    }
  }

  /** The request sends the whole conversation and nothing else: every call with its name and
      arguments, every response, every text with its speaker, in order. */
  lemma {:induction false} ConversationSent(contents: seq<Content>, short: map<string, string>)
    ensures AllAnonymous(InputItems(contents, short)) == Conversation(contents, short)
  {
    ContentsSent(START, contents, short);
  }
}

/** The Responses event stream that the Codex client reads, and the grammar it has to follow.

    JSON texts are records here.  An item id that the program builds with a format string
    (`rs_<response>_<choice>`, `msg_<response>_<choice>`, `fc_<call>`, `ctc_<call>`) is a
    constructor applied to the values that are formatted. */
module ResponsesEvents {

  datatype ItemId =
    | RsId(response: string, choice: int)
    | MsgId(response: string, choice: int)
    | FcId(call: string)
    | CtcId(call: string)

  datatype Item =
    | ReasoningItem(id: ItemId, text: string)
    | MessageItem(id: ItemId, text: string)
    | FunctionItem(id: ItemId, callId: string, name: string, arguments: string)
    | CustomItem(id: ItemId, callId: string, name: string, input: string)

  /** Which family of events carries an item's text: `response.output_text.*`,
      `response.reasoning_summary_text.*` or `response.function_call_arguments.*`. */
  datatype Channel = OutputText | SummaryText | Arguments

  datatype Body =
    | Created(response: string)
    | InProgress(response: string)
    | ItemAdded(index: nat, item: Item)
    | PartAdded(channel: Channel, id: ItemId, index: nat)
    | Delta(channel: Channel, id: ItemId, index: nat, delta: string)
    | TextDone(channel: Channel, id: ItemId, index: nat, text: string)
    | PartDone(channel: Channel, id: ItemId, index: nat, text: string)
    | ItemDone(index: nat, item: Item)
    | Completed(response: string, output: seq<Item>)

  datatype Event = Event(sequenceNumber: nat, body: Body)

  // ---------------------------------------------------------------- grammar

  /** How far the item at one output index has come.  A text-carrying item goes through all
      stages; a function call has no part, so it starts Streaming and goes to PartFinal when
      its arguments are final; a custom tool call has no deltas and starts PartFinal. */
  datatype Stage = Announced | Streaming | TextFinal | PartFinal | Closed

  /** An item as the client has seen it so far: what was announced, the deltas joined, the stage. */
  datatype Live = Live(item: Item, text: string, stage: Stage)

  datatype Phase = Fresh | Opened | Running | Over

  datatype Grammar =
    | Broken
    | Grammar(count: nat, phase: Phase, items: seq<Live>)

  function ChannelOf(item: Item): Channel {
    match item
    case ReasoningItem(_, _) => SummaryText
    case MessageItem(_, _) => OutputText
    case FunctionItem(_, _, _, _) => Arguments
    case CustomItem(_, _, _, _) => Arguments
  }

  predicate Blank(item: Item) {
    match item
    case ReasoningItem(_, text) => text == ""
    case MessageItem(_, text) => text == ""
    case FunctionItem(_, _, _, arguments) => arguments == ""
    case CustomItem(_, _, _, input) => input == ""
  }

  function FirstStage(item: Item): Stage {
    match item
    case ReasoningItem(_, _) => Announced
    case MessageItem(_, _) => Announced
    case FunctionItem(_, _, _, _) => Streaming
    case CustomItem(_, _, _, _) => PartFinal
  }

  /** Arguments that stayed empty are finalised as the empty JSON object. */
  function FinalArguments(args: string): string {
    if args == "" then "{}" else args
  }

  function FinalText(live: Live): string {
    if live.item.FunctionItem? then FinalArguments(live.text) else live.text
  }

  /** Whether `done` is the item that was announced, now with its final text.  The input of a
      custom tool call is not carried by deltas, so any input is accepted for it. */
  predicate Finishes(live: Live, done: Item) {
    match done
    case ReasoningItem(id, text) => live.item == ReasoningItem(id, "") && text == live.text
    case MessageItem(id, text) => live.item == MessageItem(id, "") && text == live.text
    case FunctionItem(id, callId, name, arguments) =>
      live.item == FunctionItem(id, callId, name, "") && arguments == FinalText(live)
    case CustomItem(id, callId, name, _) => live.item == CustomItem(id, callId, name, "")
  }

  predicate Addresses(g: Grammar, channel: Channel, id: ItemId, index: nat, stage: Stage)
    requires g.Grammar?
  {
    index < |g.items| && g.items[index].item.id == id && g.items[index].stage == stage
    && ChannelOf(g.items[index].item) == channel
  }

  /** One event against the grammar; sequence numbers count from 1 without gaps. */
  function Accept(g: Grammar, e: Event): Grammar {
    if g.Broken? || e.sequenceNumber != g.count + 1 then Broken
    else
      var g' := g.(count := g.count + 1);
      match e.body
      case Created(_) => if g.phase.Fresh? then g'.(phase := Opened) else Broken
      case InProgress(_) => if g.phase.Opened? then g'.(phase := Running) else Broken
      case Completed(_, _) =>
        if g.phase.Running? && (forall k :: 0 <= k < |g.items| ==> g.items[k].stage.Closed?)
        then g'.(phase := Over) else Broken
      case ItemAdded(index, item) =>
        if g.phase.Running? && index == |g.items| && Blank(item)
        then g'.(items := g.items + [Live(item, "", FirstStage(item))]) else Broken
      case PartAdded(channel, id, index) =>
        if g.phase.Running? && Addresses(g, channel, id, index, Announced)
        then g'.(items := g.items[index := g.items[index].(stage := Streaming)]) else Broken
      case Delta(channel, id, index, delta) =>
        if g.phase.Running? && Addresses(g, channel, id, index, Streaming)
        then g'.(items := g.items[index := g.items[index].(text := g.items[index].text + delta)]) else Broken
      case TextDone(channel, id, index, text) =>
        if g.phase.Running? && Addresses(g, channel, id, index, Streaming) && text == FinalText(g.items[index])
        then g'.(items := g.items[index :=
            g.items[index].(stage := if channel.Arguments? then PartFinal else TextFinal)])
        else Broken
      case PartDone(channel, id, index, text) =>
        if g.phase.Running? && Addresses(g, channel, id, index, TextFinal) && text == g.items[index].text
        then g'.(items := g.items[index := g.items[index].(stage := PartFinal)]) else Broken
      case ItemDone(index, item) =>
        if g.phase.Running? && index < |g.items| && g.items[index].stage.PartFinal? && Finishes(g.items[index], item)
        then g'.(items := g.items[index := g.items[index].(stage := Closed)]) else Broken
  }

  function Read(log: seq<Event>): Grammar {
    if log == [] then Grammar(0, Fresh, [])
    else Accept(Read(log[..|log| - 1]), log[|log| - 1])
  }

  /** A whole stream is well formed: it ends with `response.completed`, and by then every item
      that was announced has been closed. */
  predicate WellFormed(log: seq<Event>) {
    var g := Read(log);
    g.Grammar? && g.phase.Over?
  }

  /** The texts of the closed items, by output index. */
  function ItemsOf(log: seq<Event>): seq<Live> {
    if Read(log).Grammar? then Read(log).items else []
  }
}

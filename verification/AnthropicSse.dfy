/** The Anthropic event stream of a complete reply, and a client that reads it back. */
module AnthropicSse {
  import opened Wrappers
  import opened Json
  import opened Sequences
  import opened Text
  import opened Fields
  import JsonText
  import OpenAiSse
  import opened Anthropic

  datatype Kind = MessageStarts | BlockStarts | BlockDeltas | BlockStops | MessageDeltas | MessageStops

  function Name(kind: Kind): string {
    match kind
    case MessageStarts => "message_start"
    case BlockStarts => "content_block_start"
    case BlockDeltas => "content_block_delta"
    case BlockStops => "content_block_stop"
    case MessageDeltas => "message_delta"
    case MessageStops => "message_stop"
  }

  datatype Event = Event(kind: Kind, data: Json)

  // --------------------------------------------------------------------- printing

  function MessageStart(model: string, inputTokens: U64): Event {
    Event(MessageStarts, Obj(map["type" := Str("message_start"), "message" := Obj(map[
      "id" := Str("msg_mock_0001"), "type" := Str("message"), "role" := Str("assistant"), "model" := Str(model),
      "content" := Arr([]), "usage" := Obj(map["input_tokens" := Num(inputTokens), "output_tokens" := Num(0)])])]))
  }

  function BlockStart(i: U64, block: Json): Event {
    Event(BlockStarts, Obj(map["type" := Str("content_block_start"), "index" := Num(i), "content_block" := block]))
  }

  function BlockDelta(i: U64, delta: Json): Event {
    Event(BlockDeltas, Obj(map["type" := Str("content_block_delta"), "index" := Num(i), "delta" := delta]))
  }

  function BlockStop(i: U64): Event {
    Event(BlockStops, Obj(map["type" := Str("content_block_stop"), "index" := Num(i)]))
  }

  function MessageDelta(stopReason: string, outputTokens: U64): Event {
    Event(MessageDeltas, Obj(map["type" := Str("message_delta"),
      "delta" := Obj(map["stop_reason" := Str(stopReason), "stop_sequence" := Null]),
      "usage" := Obj(map["output_tokens" := Num(outputTokens)])]))
  }

  function MessageStop(): Event {
    Event(MessageStops, Obj(map["type" := Str("message_stop")]))
  }

  function TextDelta(i: U64, text: string): Event {
    BlockDelta(i, Obj(map["type" := Str("text_delta"), "text" := Str(text)]))
  }

  function InputDelta(i: U64, json: string): Event {
    BlockDelta(i, Obj(map["type" := Str("input_json_delta"), "partial_json" := Str(json)]))
  }

  /** The delta events of a block: one for text and tool use, none for anything else. */
  function Deltas(i: U64, block: Json): seq<Event> {
    match BlockType(block)
    case "text" => [TextDelta(i, GetStr(block, "text").GetOr(""))]
    case "tool_use" => [InputDelta(i, JsonText.Print(block.Get("input").GetOr(Obj(map[]))))]
    case _ => []
  }

  function BlockEvents(i: U64, block: Json): seq<Event> {
    [BlockStart(i, block)] + Deltas(i, block) + [BlockStop(i)]
  }

  function EventGroups(blocks: seq<Json>): seq<seq<Event>>
    requires |blocks| < U64_BOUND
  {
    seq(|blocks|, i requires 0 <= i < |blocks| => BlockEvents(i, blocks[i]))
  }

  function Same(events: seq<Event>): seq<Event> { events }

  /** The events of all blocks, in order. */
  function AllBlockEvents(blocks: seq<Json>): seq<Event>
    requires |blocks| < U64_BOUND
  {
    FlatMap(EventGroups(blocks), Same)
  }

  function Events(resp: Json): seq<Event>
    requires |Blocks(resp)| < U64_BOUND
  {
    var (pt, ct) := ExtractUsage(resp);
    [MessageStart(OpenAiSse.ReplyModel(resp), pt)] + AllBlockEvents(Blocks(resp)) +
    [MessageDelta(StopReason(resp), ct), MessageStop()]
  }

  function EventText(e: Event): string {
    "event: " + Name(e.kind) + ['\n'] + "data: " + JsonText.Print(e.data) + ['\n'] + ['\n']
  }

  function EventsText(events: seq<Event>): string {
    FlatMap(events, EventText)
  }

  lemma BlockEventsText(i: U64, block: Json)
    ensures EventsText(BlockEvents(i, block)) ==
      EventText(BlockStart(i, block)) + EventsText(Deltas(i, block)) + EventText(BlockStop(i))
  {
    FlatMapLast([BlockStart(i, block)] + Deltas(i, block), BlockStop(i), EventText);
    FlatMapFirst(BlockStart(i, block), Deltas(i, block), EventText);
  }

  method PrintBlock(i: U64, block: Json) returns (out: string)
    ensures out == EventsText(BlockEvents(i, block))
  {
    BlockEventsText(i, block);
    var deltas := PrintDeltas(i, block);
    out := EventText(BlockStart(i, block)) + deltas + EventText(BlockStop(i));
  }

  method PrintDeltas(i: U64, block: Json) returns (out: string)
    ensures out == EventsText(Deltas(i, block))
  {
    out := "";
    match BlockType(block) {
      case "text" =>
        out := EventText(TextDelta(i, GetStr(block, "text").GetOr("")));
        FlatMapOne(TextDelta(i, GetStr(block, "text").GetOr("")), EventText);
      case "tool_use" =>
        var json := JsonText.Print(block.Get("input").GetOr(Obj(map[])));
        out := EventText(InputDelta(i, json));
        FlatMapOne(InputDelta(i, json), EventText);
      case _ =>
    }
  }

  method PrintBlocks(blocks: seq<Json>) returns (out: string)
    requires |blocks| < U64_BOUND
    ensures out == EventsText(AllBlockEvents(blocks))
  {
    out := "";
    ghost var groups := EventGroups(blocks);
    for i := 0 to |blocks|
      invariant out == EventsText(FlatMap(groups[..i], Same))
    {
      FlatMapStep(groups, i, Same);
      FlatMapAppend(FlatMap(groups[..i], Same), groups[i], EventText);
      var more := PrintBlock(i, blocks[i]);
      out := out + more;
    }
    assert groups[..|blocks|] == groups;
  }

  lemma FrameText(start: Event, body: seq<Event>, delta: Event, stop: Event)
    ensures EventsText([start] + body + [delta, stop]) ==
            EventText(start) + EventsText(body) + EventText(delta) + EventText(stop)
  {
    FlatMapFirst(start, body, EventText);
    FlatMapLast([start] + body, delta, EventText);
    FlatMapLast([start] + body + [delta], stop, EventText);
    assert [start] + body + [delta, stop] == [start] + body + [delta] + [stop];
  }

  method PrintEvents(resp: Json) returns (out: string)
    requires |Blocks(resp)| < U64_BOUND
    ensures out == EventsText(Events(resp))
  {
    var blocks, stopReason := BuildBlocks(resp);
    var (pt, ct) := ExtractUsage(resp);
    var start, delta := MessageStart(OpenAiSse.ReplyModel(resp), pt), MessageDelta(stopReason, ct);
    FrameText(start, AllBlockEvents(blocks), delta, MessageStop());
    var body := PrintBlocks(blocks);
    out := EventText(start) + body + EventText(delta) + EventText(MessageStop());
  }

  // ----------------------------------------------------------------- reading frames

  /** One dispatched event: its name and its data, still text. */
  datatype Frame = Frame(name: string, data: string)

  /** The value of a field line: what follows the colon, less one leading space. */
  function FieldValue(line: string, field: string): Option<string> {
    if field + ":" <= line then
      var v := line[|field| + 1..];
      Some(if v != "" && v[0] == ' ' then v[1..] else v)
    else None
  }

  /** The line protocol of event streams (section 9.2.6 of the HTML Living Standard), for the two
      fields used here: a blank line dispatches what was collected, if there is data. */
  function ReadFrames(lines: seq<string>, name: string, data: Option<string>): seq<Frame>
    decreases |lines|
  {
    if lines == [] then []
    else if lines[0] == "" then
      (match data
       case None => []
       case Some(d) => [Frame(name, d)]) + ReadFrames(lines[1..], "", None)
    else
      match FieldValue(lines[0], "event")
      case Some(n) => ReadFrames(lines[1..], n, data)
      case None =>
        match FieldValue(lines[0], "data")
        case Some(d) => ReadFrames(lines[1..], name, Some(if data.None? then d else data.value + ['\n'] + d))
        case None => ReadFrames(lines[1..], name, data)
  }

  function FrameOf(e: Event): seq<Frame> {
    [Frame(Name(e.kind), JsonText.Print(e.data))]
  }

  function FramesOf(events: seq<Event>): seq<Frame> {
    FlatMap(events, FrameOf)
  }

  // ---------------------------------------------------------------------- replaying

  /** The block being received. */
  datatype Pending =
    | Nothing
    | TextPending(text: string, deltas: nat)
    | ToolPending(id: string, name: string, json: string, deltas: nat)

  type Object = v: Json | v.Obj? witness Obj(map[])

  /** A client's state: the message header once it has come, the finished blocks, the pending one,
      the message delta once it has come, and whether the message was stopped. */
  datatype Client = Client(header: Option<Object>, blocks: seq<Json>, pending: Pending, final: Option<Object>,
                           stopped: bool)

  const IDLE: Client := Client(None, [], Nothing, None, false)

  function GetObj(v: Json, key: string): Option<Object> {
    match v.Get(key)
    case None => None
    case Some(x) => if x.Obj? then Some(x) else None
  }

  function OnMessageStart(c: Client, data: Json): Option<Client> {
    match GetObj(data, "message")
    case None => None
    case Some(m) => if c.header.None? then Some(c.(header := Some(m))) else None
  }

  function OnBlockStart(c: Client, data: Json): Option<Client> {
    match GetObj(data, "content_block")
    case None => None
    case Some(b) =>
      if c.header.None? || c.pending != Nothing || c.final.Some? then None
      else if GetStr(b, "type") == Some("text") then Some(c.(pending := TextPending("", 0)))
      else if GetStr(b, "type") == Some("tool_use") && GetStr(b, "id").Some? && GetStr(b, "name").Some? then
        Some(c.(pending := ToolPending(GetStr(b, "id").value, GetStr(b, "name").value, "", 0)))
      else None
  }

  function OnDelta(c: Client, delta: Json): Option<Client> {
    match c.pending
    case TextPending(text, 0) =>
      if GetStr(delta, "type") == Some("text_delta") && GetStr(delta, "text").Some? then
        Some(c.(pending := TextPending(text + GetStr(delta, "text").value, 1)))
      else None
    case ToolPending(id, name, json, 0) =>
      if GetStr(delta, "type") == Some("input_json_delta") && GetStr(delta, "partial_json").Some? then
        Some(c.(pending := ToolPending(id, name, json + GetStr(delta, "partial_json").value, 1)))
      else None
    case _ => None
  }

  function OnBlockStop(c: Client): Option<Client> {
    match c.pending
    case TextPending(text, 1) => Some(c.(blocks := c.blocks + [TextBlock(text)], pending := Nothing))
    case ToolPending(id, name, json, 1) =>
      (match JsonText.Parse(json)
       case None => None
       case Some(input) =>
         var b := Obj(map["type" := Str("tool_use"), "id" := Str(id), "name" := Str(name), "input" := input]);
         Some(c.(blocks := c.blocks + [b], pending := Nothing)))
    case _ => None
  }

  /** A client that accepts only one message frame, blocks with contiguous indices and one delta
      per block, and that builds blocks from deltas alone. None: the stream is not well formed. */
  function Step(c: Client, e: Event): Option<Client> {
    if c.stopped then None
    else
      match e.kind
      case MessageStarts => OnMessageStart(c, e.data)
      case MessageDeltas =>
        if c.header.Some? && c.pending == Nothing && c.final.None? && e.data.Obj? then Some(c.(final := Some(e.data)))
        else None
      case MessageStops =>
        if c.final.Some? then Some(c.(stopped := true)) else None
      case _ =>
        if |c.blocks| >= U64_BOUND || GetU64(e.data, "index") != Some(|c.blocks|) then None
        else
          match e.kind
          case BlockStarts => OnBlockStart(c, e.data)
          case BlockDeltas => OnDelta(c, e.data.Get("delta").GetOr(Null))
          case _ => OnBlockStop(c)
  }

  function Run(c: Client, events: seq<Event>): Option<Client> {
    if events == [] then Some(c)
    else match Run(c, events[..|events| - 1])
      case None => None
      case Some(d) => Step(d, events[|events| - 1])
  }

  /** The message a client ends up with: the header, the blocks, and what the message delta says
      about stopping; its output token count replaces the header's. */
  function Received(c: Client): Option<Json> {
    if c.stopped && c.header.Some? && c.final.Some? then
      match GetObj(c.final.value, "delta")
      case None => None
      case Some(delta) =>
        match GetObj(c.final.value, "usage")
        case None => None
        case Some(more) =>
          match GetObj(c.header.value, "usage")
          case None => None
          case Some(usage) =>
            Some(Obj(c.header.value.fields + delta.fields +
                     map["content" := Arr(c.blocks), "usage" := Obj(usage.fields + more.fields)]))
    else None
  }

  // ------------------------------------------------------- the text carries the events

  lemma LinesOfThree(first: string, second: string, rest: string)
    requires JsonText.OneLine(first) && JsonText.OneLine(second)
    ensures Lines(first + ['\n'] + second + ['\n'] + ['\n'] + rest) == [first, second, ""] + Lines(rest)
  {
    var tail := ['\n'] + rest;
    LinesFirst("", rest);
    assert "" + ['\n'] + rest == tail;
    LinesFirst(second, tail);
    LinesFirst(first, second + ['\n'] + tail);
    ThreeJoined(first, second, rest);
    ThreeInFront(first, second, Lines(rest));
  }

  lemma ThreeJoined(first: string, second: string, rest: string)
    ensures first + ['\n'] + second + ['\n'] + ['\n'] + rest == first + ['\n'] + (second + ['\n'] + (['\n'] + rest))
  {
  }

  lemma ThreeInFront(first: string, second: string, rest: seq<string>)
    ensures [first] + ([second] + ([""] + rest)) == [first, second, ""] + rest
  {
  }

  lemma LinesOfEvent(e: Event, rest: string)
    ensures Lines(EventText(e) + rest) ==
            ["event: " + Name(e.kind), "data: " + JsonText.Print(e.data), ""] + Lines(rest)
  {
    JsonText.PrintOneLine(e.data);
    assert JsonText.OneLine(Name(e.kind)) && JsonText.OneLine("event: ") && JsonText.OneLine("data: ");
    JsonText.OneLineAppend("event: ", Name(e.kind));
    JsonText.OneLineAppend("data: ", JsonText.Print(e.data));
    LinesOfThree("event: " + Name(e.kind), "data: " + JsonText.Print(e.data), rest);
    EventLines(e, rest);
  }

  lemma EventLines(e: Event, rest: string)
    ensures EventText(e) + rest ==
      ("event: " + Name(e.kind)) + ['\n'] + ("data: " + JsonText.Print(e.data)) + ['\n'] + ['\n'] + rest
  {
  }

  lemma ReadEventLines(first: string, second: string, e: Event, rest: seq<string>)
    requires first == "event: " + Name(e.kind) && second == "data: " + JsonText.Print(e.data)
    ensures ReadFrames([first, second, ""] + rest, "", None) == FrameOf(e) + ReadFrames(rest, "", None)
  {
    assert first[6..] == [' '] + Name(e.kind) && second[5..] == [' '] + JsonText.Print(e.data);
    assert FieldValue(first, "event") == Some(Name(e.kind));
    assert second[0] != 'e' && FieldValue(second, "event") == None;
    assert FieldValue(second, "data") == Some(JsonText.Print(e.data));
    ReadThreeLines(first, second, Name(e.kind), JsonText.Print(e.data), rest);
  }

  lemma ReadThreeLines(first: string, second: string, name: string, data: string, rest: seq<string>)
    requires first != "" && second != "" && FieldValue(first, "event") == Some(name)
    requires FieldValue(second, "event") == None && FieldValue(second, "data") == Some(data)
    ensures ReadFrames([first, second, ""] + rest, "", None) == [Frame(name, data)] + ReadFrames(rest, "", None)
  {
    var lines := [first, second, ""] + rest;
    assert lines[1..] == [second, ""] + rest && lines[1..][1..] == [""] + rest && ([""] + rest)[1..] == rest;
    assert ReadFrames([""] + rest, name, Some(data)) == [Frame(name, data)] + ReadFrames(rest, "", None);
    assert ReadFrames(lines[1..], name, None) == ReadFrames([""] + rest, name, Some(data));
  }

  /** A client that follows the line protocol gets exactly the printed events, in order. */
  lemma {:induction false} TextCarriesEvents(events: seq<Event>)
    ensures ReadFrames(Lines(EventsText(events)), "", None) == FramesOf(events)
    decreases |events|
  {
    if events == [] {
      assert Lines("") == [];
    } else {
      assert events == [events[0]] + events[1..];
      TextCarriesEvents(events[1..]);
      TextCarriesFirst(events[0], events[1..]);
    }
  }

  lemma TextCarriesFirst(e: Event, rest: seq<Event>)
    ensures ReadFrames(Lines(EventsText([e] + rest)), "", None) ==
            FrameOf(e) + ReadFrames(Lines(EventsText(rest)), "", None)
    ensures FramesOf([e] + rest) == FrameOf(e) + FramesOf(rest)
  {
    FlatMapFirst(e, rest, EventText);
    FlatMapFirst(e, rest, FrameOf);
    LinesOfEvent(e, EventsText(rest));
    ReadEventLines("event: " + Name(e.kind), "data: " + JsonText.Print(e.data), e, Lines(EventsText(rest)));
  }

  function KindOf(name: string): Option<Kind> {
    match name
    case "message_start" => Some(MessageStarts)
    case "content_block_start" => Some(BlockStarts)
    case "content_block_delta" => Some(BlockDeltas)
    case "content_block_stop" => Some(BlockStops)
    case "message_delta" => Some(MessageDeltas)
    case "message_stop" => Some(MessageStops)
    case _ => None
  }

  /** A frame as an event, for a client whose JSON parser allows `limit` levels. */
  function Decode(f: Frame, limit: nat): Option<Event> {
    match (KindOf(f.name), JsonText.ParseValue(f.data, limit))
    case (Some(kind), Done(v, "")) => Some(Event(kind, v))
    case _ => None
  }

  function DecodeAll(frames: seq<Frame>, limit: nat): Option<seq<Event>> {
    if frames == [] then Some([])
    else
      match (DecodeAll(frames[..|frames| - 1], limit), Decode(frames[|frames| - 1], limit))
      case (Some(events), Some(e)) => Some(events + [e])
      case _ => None
  }

  lemma DecodeFrame(e: Event, limit: nat)
    requires JsonText.Fits(e.data, limit)
    ensures Decode(FrameOf(e)[0], limit) == Some(e)
  {
    JsonText.ParsePrinted(e.data, "", limit);
    assert JsonText.Print(e.data) + "" == JsonText.Print(e.data);
    KindOfName(e.kind);
  }

  lemma KindOfName(kind: Kind)
    ensures KindOf(Name(kind)) == Some(kind)
  {
  }

  lemma {:induction false} DecodeFrames(events: seq<Event>, limit: nat)
    requires AllFit(events, limit)
    ensures DecodeAll(FramesOf(events), limit) == Some(events)
  {
    if events != [] {
      var init, last := events[..|events| - 1], events[|events| - 1];
      DecodeFrames(init, limit);
      DecodeFrame(last, limit);
      assert events == init + [last];
      FlatMapLast(init, last, FrameOf);
      DecodeLast(FramesOf(init), FrameOf(last)[0], init, last, limit);
    }
  }

  lemma DecodeLast(frames: seq<Frame>, f: Frame, events: seq<Event>, e: Event, limit: nat)
    requires DecodeAll(frames, limit) == Some(events) && Decode(f, limit) == Some(e)
    ensures DecodeAll(frames + [f], limit) == Some(events + [e])
  {
    assert (frames + [f])[..|frames|] == frames;
  }

  // -------------------------------------------------------- replaying gives the reply

  lemma {:induction false} RunAppend(c: Client, a: seq<Event>, b: seq<Event>)
    ensures Run(c, a + b) == match Run(c, a) { case None => None case Some(d) => Run(d, b) }
  {
    if b == [] {
      assert a + b == a;
    } else {
      assert (a + b)[..|a + b| - 1] == a + b[..|b| - 1];
      RunAppend(c, a, b[..|b| - 1]);
    }
  }

  lemma RunOne(c: Client, e: Event)
    ensures Run(c, [e]) == Step(c, e)
  {
    assert [e][..0] == [];
  }

  lemma RunThree(c: Client, a: Event, b: Event, d: Event)
    ensures Run(c, [a] + [b] + [d]) ==
      match Step(c, a)
      case None => None
      case Some(c1) =>
        match Step(c1, b)
        case None => None
        case Some(c2) => Step(c2, d)
  {
    RunAppend(c, [a] + [b], [d]);
    RunAppend(c, [a], [b]);
    RunOne(c, a);
    if Step(c, a).Some? {
      RunOne(Step(c, a).value, b);
      if Step(Step(c, a).value, b).Some? {
        RunOne(Step(Step(c, a).value, b).value, d);
      }
    }
  }

  /** Between blocks. */
  ghost predicate Ready(c: Client, n: nat) {
    c.header.Some? && |c.blocks| == n && c.pending == Nothing && c.final.None? && !c.stopped
  }

  lemma StepTextStart(c: Client, i: U64, text: string)
    requires Ready(c, i)
    ensures Step(c, BlockStart(i, TextBlock(text))) == Some(c.(pending := TextPending("", 0)))
  {
    assert GetStr(TextBlock(text), "type") == Some("text");
  }

  lemma StepTextDelta(c: Client, i: U64, text: string)
    requires !c.stopped && |c.blocks| == i && c.pending == TextPending("", 0)
    ensures Step(c, TextDelta(i, text)) == Some(c.(pending := TextPending(text, 1)))
  {
    assert TextDelta(i, text).data.Get("delta") == Some(Obj(map["type" := Str("text_delta"), "text" := Str(text)]));
    assert "" + text == text;
  }

  lemma StepToolStart(c: Client, i: U64, call: Json)
    requires Ready(c, i)
    ensures Step(c, BlockStart(i, ToolUseBlock(call))) ==
      Some(c.(pending := ToolPending(OpenAiSse.CallId(call), OpenAiSse.CallName(call), "", 0)))
  {
    assert GetStr(ToolUseBlock(call), "type") == Some("tool_use");
  }

  lemma StepToolDelta(c: Client, i: U64, id: string, name: string, json: string)
    requires !c.stopped && |c.blocks| == i && c.pending == ToolPending(id, name, "", 0)
    ensures Step(c, InputDelta(i, json)) == Some(c.(pending := ToolPending(id, name, json, 1)))
  {
    assert InputDelta(i, json).data.Get("delta") ==
      Some(Obj(map["type" := Str("input_json_delta"), "partial_json" := Str(json)]));
    assert "" + json == json;
  }

  lemma StepToolStop(c: Client, i: U64, call: Json)
    requires !c.stopped && |c.blocks| == i && JsonText.Fits(CallInput(call), JsonText.RECURSION_LIMIT)
    requires c.pending ==
             ToolPending(OpenAiSse.CallId(call), OpenAiSse.CallName(call), JsonText.Print(CallInput(call)), 1)
    ensures Step(c, BlockStop(i)) == Some(c.(blocks := c.blocks + [ToolUseBlock(call)], pending := Nothing))
  {
    JsonText.RoundTrip(CallInput(call));
  }

  lemma ReplyBlockDeltas(i: U64, text: string, call: Json)
    ensures Deltas(i, TextBlock(text)) == [TextDelta(i, text)]
    ensures Deltas(i, ToolUseBlock(call)) == [InputDelta(i, JsonText.Print(CallInput(call)))]
  {
    assert BlockType(TextBlock(text)) == "text" && GetStr(TextBlock(text), "text") == Some(text);
    assert BlockType(ToolUseBlock(call)) == "tool_use" && ToolUseBlock(call).Get("input") == Some(CallInput(call));
  }

  lemma RunTextBlock(c: Client, i: U64, text: string)
    requires Ready(c, i)
    ensures Run(c, BlockEvents(i, TextBlock(text))) == Some(c.(blocks := c.blocks + [TextBlock(text)]))
  {
    ReplyBlockDeltas(i, text, Null);
    RunThree(c, BlockStart(i, TextBlock(text)), TextDelta(i, text), BlockStop(i));
    StepTextStart(c, i, text);
    StepTextDelta(c.(pending := TextPending("", 0)), i, text);
  }

  lemma RunToolBlock(c: Client, i: U64, call: Json)
    requires Ready(c, i) && JsonText.Fits(CallInput(call), JsonText.RECURSION_LIMIT)
    ensures Run(c, BlockEvents(i, ToolUseBlock(call))) == Some(c.(blocks := c.blocks + [ToolUseBlock(call)]))
  {
    var id, name, json := OpenAiSse.CallId(call), OpenAiSse.CallName(call), JsonText.Print(CallInput(call));
    ReplyBlockDeltas(i, "", call);
    RunThree(c, BlockStart(i, ToolUseBlock(call)), InputDelta(i, json), BlockStop(i));
    StepToolStart(c, i, call);
    StepToolDelta(c.(pending := ToolPending(id, name, "", 0)), i, id, name, json);
    StepToolStop(c.(pending := ToolPending(id, name, json, 1)), i, call);
  }

  /** A block as replies have them. */
  ghost predicate IsReplyBlock(b: Json) {
    (exists text :: b == TextBlock(text)) ||
    (exists call :: b == ToolUseBlock(call) && JsonText.Fits(CallInput(call), JsonText.RECURSION_LIMIT))
  }

  ghost predicate AllReplyBlocks(blocks: seq<Json>) {
    forall i :: 0 <= i < |blocks| ==> IsReplyBlock(blocks[i])
  }

  /** Groups of events that each lead from one state to the next. */
  lemma {:induction false} RunGroups(states: seq<Client>, groups: seq<seq<Event>>)
    requires |states| == |groups| + 1
    requires forall i :: 0 <= i < |groups| ==> Run(states[i], groups[i]) == Some(states[i + 1])
    ensures Run(states[0], FlatMap(groups, Same)) == Some(states[|groups|])
  {
    if groups != [] {
      var n := |groups| - 1;
      RunGroups(states[..n + 1], groups[..n]);
      RunAfter(states[0], FlatMap(groups[..n], Same), states[n], groups[n], states[n + 1]);
    }
  }

  lemma RunBlocks(c: Client, blocks: seq<Json>)
    requires Ready(c, 0) && |blocks| < U64_BOUND && AllReplyBlocks(blocks)
    ensures Run(c, AllBlockEvents(blocks)) == Some(c.(blocks := blocks))
  {
    var groups := EventGroups(blocks);
    var states := seq(|blocks| + 1, i requires 0 <= i <= |blocks| => c.(blocks := blocks[..i]));
    forall i | 0 <= i < |groups|
      ensures Run(states[i], groups[i]) == Some(states[i + 1])
    {
      RunNextBlock(c, blocks, i);
    }
    RunGroups(states, groups);
    assert blocks[..0] == [] == c.blocks && blocks[..|blocks|] == blocks;
  }

  lemma RunNextBlock(c: Client, blocks: seq<Json>, i: U64)
    requires Ready(c, 0) && i < |blocks| && AllReplyBlocks(blocks)
    ensures Run(c.(blocks := blocks[..i]), BlockEvents(i, blocks[i])) == Some(c.(blocks := blocks[..i + 1]))
  {
    var d := c.(blocks := blocks[..i]);
    RunReplyBlock(d, i, blocks[i]);
    assert blocks[..i + 1] == d.blocks + [blocks[i]];
    assert d.(blocks := d.blocks + [blocks[i]]) == c.(blocks := blocks[..i + 1]);
  }

  lemma RunAfter(c: Client, a: seq<Event>, d: Client, b: seq<Event>, e: Client)
    requires Run(c, a) == Some(d) && Run(d, b) == Some(e)
    ensures Run(c, a + b) == Some(e)
  {
    RunAppend(c, a, b);
  }

  lemma RunReplyBlock(c: Client, i: U64, b: Json)
    requires Ready(c, i) && IsReplyBlock(b)
    ensures Run(c, BlockEvents(i, b)) == Some(c.(blocks := c.blocks + [b]))
  {
    if exists text :: b == TextBlock(text) {
      var text :| b == TextBlock(text);
      RunTextBlock(c, i, text);
    } else {
      var call :| b == ToolUseBlock(call) && JsonText.Fits(CallInput(call), JsonText.RECURSION_LIMIT);
      RunToolBlock(c, i, call);
    }
  }

  // ---- the blocks of a reply that was itself read by the parser

  /** Values inside a readable reply are within the parser's limit. */
  lemma FieldFits(v: Json, key: string, depth: nat)
    requires JsonText.Fits(v, depth + 1) && v.Get(key).Some?
    ensures JsonText.Fits(v.Get(key).value, depth)
  {
  }

  lemma InputFits(call: Json)
    requires JsonText.Fits(call, JsonText.RECURSION_LIMIT - 5)
    ensures JsonText.Fits(CallInput(call), JsonText.RECURSION_LIMIT)
  {
    var raw := RawArguments(call);
    if raw.Some? {
      FieldFits(call, "function", JsonText.RECURSION_LIMIT - 6);
      FieldFits(call.Get("function").value, "arguments", JsonText.RECURSION_LIMIT - 7);
      JsonText.FitsMore(raw.value, JsonText.RECURSION_LIMIT - 7, JsonText.RECURSION_LIMIT);
      if raw.value.Str? {
        JsonText.ParsedFits(raw.value.s, JsonText.RECURSION_LIMIT);
      }
    }
  }

  lemma CallsFit(resp: Json)
    requires JsonText.Fits(resp, JsonText.RECURSION_LIMIT)
    ensures forall call :: call in OpenAiSse.ReplyCalls(resp) ==> JsonText.Fits(call, JsonText.RECURSION_LIMIT - 5)
  {
    if OpenAiSse.ReplyCalls(resp) != [] {
      FieldFits(resp, "choices", JsonText.RECURSION_LIMIT - 1);
      var choice := GetArr(resp, "choices").value[0];
      assert JsonText.Fits(choice, JsonText.RECURSION_LIMIT - 2);
      FieldFits(choice, "message", JsonText.RECURSION_LIMIT - 3);
      FieldFits(choice.Get("message").value, "tool_calls", JsonText.RECURSION_LIMIT - 4);
    }
  }

  lemma ReplyBlocksFit(resp: Json)
    requires JsonText.Fits(resp, JsonText.RECURSION_LIMIT)
    ensures AllReplyBlocks(Blocks(resp))
  {
    var calls := OpenAiSse.ReplyCalls(resp);
    CallsFit(resp);
    FlatMapSingles(calls, UseBlockOf);
    forall b | b in ToolUseBlocks(calls)
      ensures IsReplyBlock(b)
    {
      var i :| 0 <= i < |calls| && ToolUseBlocks(calls)[i] == b;
      assert b == ToolUseBlock(calls[i]) && calls[i] in calls;
      InputFits(calls[i]);
    }
    forall b | b in Blocks(resp)
      ensures IsReplyBlock(b)
    {
      if b !in ToolUseBlocks(calls) {
        assert b == TextBlock(OpenAiSse.ReplyText(resp));
      }
    }
  }

  lemma RunMessage(start: Event, body: seq<Event>, delta: Event, stop: Event, c: Client, d: Client, e: Client,
                   f: Client)
    requires Step(IDLE, start) == Some(c) && Run(c, body) == Some(d) && Step(d, delta) == Some(e) &&
             Step(e, stop) == Some(f)
    ensures Run(IDLE, [start] + body + [delta, stop]) == Some(f)
  {
    RunOne(IDLE, start);
    RunAppend(IDLE, [start], body);
    RunAppend(IDLE, [start] + body, [delta]);
    RunOne(d, delta);
    RunAppend(IDLE, [start] + body + [delta], [stop]);
    RunOne(e, stop);
    assert [start] + body + [delta, stop] == [start] + body + [delta] + [stop];
  }

  /** Replaying the stream block by block from its deltas gives exactly the non-streaming reply:
      the same blocks, stop reason and token counts, in one well-formed message frame. */
  lemma ReplayGivesReply(resp: Json)
    requires JsonText.Fits(resp, JsonText.RECURSION_LIMIT) && |Blocks(resp)| < U64_BOUND
    ensures Run(IDLE, Events(resp)).Some? && Received(Run(IDLE, Events(resp)).value) == Some(AnthropicReply(resp))
  {
    var (pt, ct) := ExtractUsage(resp);
    ReplyBlocksFit(resp);
    ReplayMessage(OpenAiSse.ReplyModel(resp), Blocks(resp), StopReason(resp), pt, ct);
  }

  lemma ReplayMessage(model: string, blocks: seq<Json>, stop: string, pt: U64, ct: U64)
    requires |blocks| < U64_BOUND && AllReplyBlocks(blocks)
    ensures
      var last := Run(IDLE,
                      [MessageStart(model, pt)] + AllBlockEvents(blocks) + [MessageDelta(stop, ct), MessageStop()]);
      last.Some? && Received(last.value) == Some(Reply(model, blocks, stop, pt, ct))
  {
    var start, delta := MessageStart(model, pt), MessageDelta(stop, ct);
    var c := IDLE.(header := GetObj(start.data, "message"));
    RunBlocks(c, blocks);
    var d := c.(blocks := blocks);
    var e := d.(final := Some(delta.data));
    RunMessage(start, AllBlockEvents(blocks), delta, MessageStop(), c, d, e, e.(stopped := true));
    ReceivedReply(e.(stopped := true), model, blocks, stop, pt, ct);
  }

  lemma ReceivedReply(c: Client, model: string, blocks: seq<Json>, stop: string, pt: U64, ct: U64)
    requires c.stopped && c.blocks == blocks
    requires c.header == GetObj(MessageStart(model, pt).data, "message") && c.final == Some(MessageDelta(stop, ct).data)
    ensures Received(c) == Some(Reply(model, blocks, stop, pt, ct))
  {
    var delta := map["stop_reason" := Str(stop), "stop_sequence" := Null];
    var header := map["id" := Str("msg_mock_0001"), "type" := Str("message"), "role" := Str("assistant"),
                      "model" := Str(model),
      "content" := Arr([]), "usage" := Obj(map["input_tokens" := Num(pt), "output_tokens" := Num(0)])];
    var usage := map["input_tokens" := Num(pt), "output_tokens" := Num(ct)];
    assert c.header == Some(Obj(header));
    assert GetObj(c.final.value, "delta") == Some(Obj(delta));
    assert GetObj(c.final.value, "usage") == Some(Obj(map["output_tokens" := Num(ct)]));
    assert GetObj(c.header.value, "usage") == Some(Obj(map["input_tokens" := Num(pt), "output_tokens" := Num(0)]));
    assert map["input_tokens" := Num(pt), "output_tokens" := Num(0)] + map["output_tokens" := Num(ct)] == usage;
    MergedHeader(header, delta, model, blocks, stop, usage);
  }

  lemma MergedHeader(header: map<string, Json>, delta: map<string, Json>, model: string, blocks: seq<Json>,
                     stop: string,
                     usage: map<string, Json>)
    requires header.Keys == {"id", "type", "role", "model", "content", "usage"}
    requires header["id"] == Str("msg_mock_0001") && header["type"] == Str("message")
    requires header["role"] == Str("assistant") && header["model"] == Str(model)
    requires delta == map["stop_reason" := Str(stop), "stop_sequence" := Null]
    ensures header + delta + map["content" := Arr(blocks), "usage" := Obj(usage)] ==
      map["id" := Str("msg_mock_0001"), "type" := Str("message"), "role" := Str("assistant"), "model" := Str(model),
          "content" := Arr(blocks), "stop_reason" := Str(stop), "stop_sequence" := Null, "usage" := Obj(usage)]
  {
  }

  // ---- the whole way: text, lines, frames, events, message

  /** How many levels an event adds around the arguments of a tool use. */
  const EVENT_LEVELS: nat := 2

  ghost predicate AllFit(events: seq<Event>, limit: nat) {
    forall e :: e in events ==> JsonText.Fits(e.data, limit)
  }

  lemma AllFitAppend(a: seq<Event>, b: seq<Event>, limit: nat)
    requires AllFit(a, limit) && AllFit(b, limit)
    ensures AllFit(a + b, limit)
  {
  }

  lemma ReplyBlockFits(b: Json, limit: nat)
    requires IsReplyBlock(b) && limit >= JsonText.RECURSION_LIMIT
    ensures JsonText.Fits(b, limit + 1)
  {
    if call :| b == ToolUseBlock(call) && JsonText.Fits(CallInput(call), JsonText.RECURSION_LIMIT) {
      JsonText.FitsMore(CallInput(call), JsonText.RECURSION_LIMIT, limit);
    }
  }

  lemma DeltasFit(i: U64, b: Json, limit: nat)
    requires limit >= 10
    ensures AllFit(Deltas(i, b), limit)
  {
    forall text: string
      ensures JsonText.Fits(TextDelta(i, text).data, limit) && JsonText.Fits(InputDelta(i, text).data, limit)
    {
      assert JsonText.Fits(Obj(map["type" := Str("text_delta"), "text" := Str(text)]), limit - 1);
      assert JsonText.Fits(Obj(map["type" := Str("input_json_delta"), "partial_json" := Str(text)]), limit - 1);
    }
  }

  lemma BlockEventsFit(i: U64, b: Json, limit: nat)
    requires IsReplyBlock(b) && limit >= JsonText.RECURSION_LIMIT + EVENT_LEVELS
    ensures AllFit(BlockEvents(i, b), limit)
  {
    ReplyBlockFits(b, limit - 2);
    DeltasFit(i, b, limit);
    AllFitAppend([BlockStart(i, b)], Deltas(i, b), limit);
    AllFitAppend([BlockStart(i, b)] + Deltas(i, b), [BlockStop(i)], limit);
  }

  lemma {:induction false} GroupsFit(groups: seq<seq<Event>>, limit: nat)
    requires forall i :: 0 <= i < |groups| ==> AllFit(groups[i], limit)
    ensures AllFit(FlatMap(groups, Same), limit)
  {
    if groups != [] {
      GroupsFit(groups[..|groups| - 1], limit);
      AllFitAppend(FlatMap(groups[..|groups| - 1], Same), groups[|groups| - 1], limit);
    }
  }

  lemma AllBlockEventsFit(blocks: seq<Json>, limit: nat)
    requires |blocks| < U64_BOUND && limit >= JsonText.RECURSION_LIMIT + EVENT_LEVELS && AllReplyBlocks(blocks)
    ensures AllFit(AllBlockEvents(blocks), limit)
  {
    forall i | 0 <= i < |blocks|
      ensures AllFit(EventGroups(blocks)[i], limit)
    {
      BlockEventsFit(i, blocks[i], limit);
    }
    GroupsFit(EventGroups(blocks), limit);
  }

  /** From the printed text, a client that follows the line protocol and whose JSON parser allows
      two levels more than the gateway's rebuilds the non-streaming reply. */
  lemma StreamRefinesReply(resp: Json, limit: nat)
    requires JsonText.Fits(resp, JsonText.RECURSION_LIMIT) && |Blocks(resp)| < U64_BOUND
    requires limit >= JsonText.RECURSION_LIMIT + EVENT_LEVELS
    ensures
      var events := DecodeAll(ReadFrames(Lines(EventsText(Events(resp))), "", None), limit);
      events.Some? && Run(IDLE, events.value).Some? &&
      Received(Run(IDLE, events.value).value) == Some(AnthropicReply(resp))
  {
    EventsFit(resp, limit);
    TextDecodes(Events(resp), limit);
    ReplayGivesReply(resp);
  }

  lemma TextDecodes(events: seq<Event>, limit: nat)
    requires AllFit(events, limit)
    ensures DecodeAll(ReadFrames(Lines(EventsText(events)), "", None), limit) == Some(events)
  {
    TextCarriesEvents(events);
    DecodeFrames(events, limit);
  }

  lemma EventsFit(resp: Json, limit: nat)
    requires JsonText.Fits(resp, JsonText.RECURSION_LIMIT) && |Blocks(resp)| < U64_BOUND
    requires limit >= JsonText.RECURSION_LIMIT + EVENT_LEVELS
    ensures AllFit(Events(resp), limit)
  {
    var (pt, ct) := ExtractUsage(resp);
    var start, body := MessageStart(OpenAiSse.ReplyModel(resp), pt), AllBlockEvents(Blocks(resp));
    var end := [MessageDelta(StopReason(resp), ct), MessageStop()];
    ReplyBlocksFit(resp);
    AllBlockEventsFit(Blocks(resp), limit);
    FrameEventsFit(resp, limit);
    AllFitAppend([start], body, limit);
    AllFitAppend([start] + body, end, limit);
  }

  lemma FrameEventsFit(resp: Json, limit: nat)
    requires limit >= 10
    ensures
      var (pt, ct) := ExtractUsage(resp);
      JsonText.Fits(MessageStart(OpenAiSse.ReplyModel(resp), pt).data, limit) &&
      JsonText.Fits(MessageDelta(StopReason(resp), ct).data, limit) && JsonText.Fits(MessageStop().data, limit)
  {
    var (pt, ct) := ExtractUsage(resp);
    StartFits(OpenAiSse.ReplyModel(resp), pt, limit);
    DeltaFits(StopReason(resp), ct, limit);
  }

  lemma StartFits(model: string, inputTokens: U64, limit: nat)
    requires limit >= 10
    ensures JsonText.Fits(MessageStart(model, inputTokens).data, limit)
  {
    var usage := Obj(map["input_tokens" := Num(inputTokens), "output_tokens" := Num(0)]);
    assert JsonText.Fits(usage, limit - 2) && JsonText.Fits(Arr([]), limit - 2);
    assert JsonText.Fits(MessageStart(model, inputTokens).data.fields["message"], limit - 1);
  }

  lemma DeltaFits(stopReason: string, outputTokens: U64, limit: nat)
    requires limit >= 10
    ensures JsonText.Fits(MessageDelta(stopReason, outputTokens).data, limit)
  {
    assert JsonText.Fits(Obj(map["output_tokens" := Num(outputTokens)]), limit - 1);
    assert JsonText.Fits(Obj(map["stop_reason" := Str(stopReason), "stop_sequence" := Null]), limit - 1);
  }

  // ------------------------------------------------------------------ field by field

  /** The data of an event names the event again. */
  ghost predicate Typed(e: Event) {
    TextIn(Field(Some(e.data), "type")) == Some(Name(e.kind))
  }

  ghost predicate AllTyped(events: seq<Event>) {
    forall e :: e in events ==> Typed(e)
  }

  /** The events of a block: all with its index; the first carries the whole block. */
  lemma BlockEventsHold(i: U64, block: Json)
    ensures
      var events := BlockEvents(i, block);
      |events| >= 2 && events[0].kind == BlockStarts && events[|events| - 1].kind == BlockStops &&
      Field(Some(events[0].data), "content_block") == Some(block) &&
      forall e :: e in events ==> Typed(e) && NumberIn(Field(Some(e.data), "index")) == Some(i)
  {
    assert Typed(BlockStart(i, block)) && Typed(BlockStop(i));
    assert forall delta: Json :: Typed(BlockDelta(i, delta));
  }

  lemma {:induction false} GroupsTyped(groups: seq<seq<Event>>)
    requires forall g :: g in groups ==> AllTyped(g)
    ensures AllTyped(FlatMap(groups, Same))
  {
    if groups != [] {
      GroupsTyped(groups[..|groups| - 1]);
      assert groups[|groups| - 1] in groups;
    }
  }

  lemma EventsTyped(resp: Json)
    requires |Blocks(resp)| < U64_BOUND
    ensures AllTyped(Events(resp))
  {
    var blocks := Blocks(resp);
    forall g | g in EventGroups(blocks)
      ensures AllTyped(g)
    {
      var i :| 0 <= i < |blocks| && EventGroups(blocks)[i] == g;
      BlockEventsHold(i, blocks[i]);
    }
    GroupsTyped(EventGroups(blocks));
    var (pt, ct) := ExtractUsage(resp);
    FrameTyped(OpenAiSse.ReplyModel(resp), pt, StopReason(resp), ct, AllBlockEvents(blocks));
  }

  lemma FrameTyped(model: string, pt: U64, stop: string, ct: U64, body: seq<Event>)
    requires AllTyped(body)
    ensures AllTyped([MessageStart(model, pt)] + body + [MessageDelta(stop, ct), MessageStop()])
  {
    assert Typed(MessageStart(model, pt)) && Typed(MessageDelta(stop, ct)) && Typed(MessageStop());
  }
}

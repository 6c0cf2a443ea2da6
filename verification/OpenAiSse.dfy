/** The OpenAI event stream: a complete reply printed as chunks, and chunk text assembled back
    into a complete reply. */
module OpenAiSse {
  import opened Wrappers
  import opened Json
  import opened Text
  import opened Fields
  import JsonText

  // ------------------------------------------------------------- reading a reply

  datatype Choice = Choice(text: string, toolCalls: seq<Json>, finishReason: Option<string>)

  /** The first choice of a reply that has a message. */
  function FirstChoice(resp: Json): Option<Choice> {
    match GetArr(resp, "choices")
    case None => None
    case Some(choices) =>
      if choices == [] then None
      else
        match choices[0].Get("message")
        case None => None
        case Some(message) =>
          Some(Choice(GetStr(message, "content").GetOr(""),
                      GetArr(message, "tool_calls").GetOr([]),
                      GetStr(choices[0], "finish_reason")))
  }

  function CallId(call: Json): string {
    GetStr(call, "id").GetOr("call_0")
  }

  function CallName(call: Json): string {
    match call.Get("function")
    case None => ""
    case Some(f) => GetStr(f, "name").GetOr("")
  }

  function CallArguments(call: Json): string {
    match call.Get("function")
    case None => ""
    case Some(f) => GetStr(f, "arguments").GetOr("")
  }

  // ----------------------------------------------------------------- printing chunks

  function Chunk(id: string, created: U64, model: string, delta: Json, finish: Json): Json {
    Obj(map["id" := Str(id), "object" := Str("chat.completion.chunk"), "created" := Num(created), "model" := Str(model),
            "choices" := Arr([Obj(map["index" := Num(0), "delta" := delta, "finish_reason" := finish])])])
  }

  function WithUsage(chunk: Json, usage: Json): Json
    requires chunk.Obj?
  {
    Obj(chunk.fields["usage" := usage])
  }

  function UsageOf(pt: U64, ct: U64): Json {
    Obj(map["prompt_tokens" := Num(pt), "completion_tokens" := Num(ct), "total_tokens" := Num((pt + ct) % U64_BOUND)])
  }

  function ToolCallDelta(call: Json): Json {
    Obj(map["tool_calls" := Arr([Obj(map[
      "index" := Num(GetU64(call, "index").GetOr(0)), "id" := Str(CallId(call)), "type" := Str("function"),
      "function" := Obj(map["name" := Str(CallName(call)), "arguments" := Str(CallArguments(call))])])])])
  }

  function ReplyId(resp: Json): string { GetStr(resp, "id").GetOr("chatcmpl-mock") }
  function ReplyModel(resp: Json): string { GetStr(resp, "model").GetOr("default") }
  function ReplyCreated(resp: Json): U64 { GetU64(resp, "created").GetOr(0) }

  /** The finish reason that is streamed. */
  function StreamedFinish(resp: Json): string {
    match FirstChoice(resp)
    case None => "stop"
    case Some(c) => if c.finishReason in {Some("tool_calls"), Some("length")} then c.finishReason.value else "stop"
  }

  function ReplyText(resp: Json): string {
    match FirstChoice(resp)
    case None => ""
    case Some(c) => c.text
  }

  function ReplyCalls(resp: Json): seq<Json> {
    match FirstChoice(resp)
    case None => []
    case Some(c) => c.toolCalls
  }

  /** A chunk of the reply with the given delta and no finish reason yet. */
  function DeltaChunk(resp: Json, delta: Json): Json {
    Chunk(ReplyId(resp), ReplyCreated(resp), ReplyModel(resp), delta, Null)
  }

  function CallChunks(resp: Json, calls: seq<Json>): seq<Json> {
    seq(|calls|, i requires 0 <= i < |calls| => DeltaChunk(resp, ToolCallDelta(calls[i])))
  }

  function RoleChunk(resp: Json): Json {
    DeltaChunk(resp, Obj(map["role" := Str("assistant"), "content" := Str("")]))
  }

  function FinalChunk(resp: Json): Json {
    var (pt, ct) := ExtractUsage(resp);
    WithUsage(Chunk(ReplyId(resp), ReplyCreated(resp), ReplyModel(resp), Obj(map[]), Str(StreamedFinish(resp))),
              UsageOf(pt, ct))
  }

  function TextChunk(resp: Json): Json {
    DeltaChunk(resp, Obj(map["content" := Str(ReplyText(resp))]))
  }

  function OpeningChunks(resp: Json): seq<Json> {
    [RoleChunk(resp)] + if ReplyText(resp) == "" then [] else [TextChunk(resp)]
  }

  /** Role, text if any, tool calls, finish with usage. */
  function Chunks(resp: Json): seq<Json> {
    OpeningChunks(resp) + CallChunks(resp, ReplyCalls(resp)) + [FinalChunk(resp)]
  }

  function Frame(chunk: Json): string {
    "data: " + JsonText.Print(chunk) + ['\n'] + ['\n']
  }

  function Frames(chunks: seq<Json>): string {
    if chunks == [] then "" else Frame(chunks[0]) + Frames(chunks[1..])
  }

  function Done(): string {
    "data: [DONE]" + ['\n'] + ['\n']
  }

  lemma {:induction false} FramesAppend(chunks: seq<Json>, c: Json)
    ensures Frames(chunks + [c]) == Frames(chunks) + Frame(c)
  {
    if chunks == [] {
      assert [c][1..] == [] && chunks + [c] == [c];
    } else {
      assert (chunks + [c])[1..] == chunks[1..] + [c];
      FramesAppend(chunks[1..], c);
    }
  }

  method PrintStream(resp: Json) returns (out: string)
    ensures out == Frames(Chunks(resp)) + Done()
  {
    FramesAppend([], RoleChunk(resp));
    out := Frame(RoleChunk(resp));
    if ReplyText(resp) != "" {
      FramesAppend([RoleChunk(resp)], TextChunk(resp));
      out := out + Frame(TextChunk(resp));
    }
    var calls := ReplyCalls(resp);
    ghost var opening := OpeningChunks(resp);
    assert opening + CallChunks(resp, calls[..0]) == opening;
    for i := 0 to |calls|
      invariant out == Frames(opening + CallChunks(resp, calls[..i]))
    {
      var c := DeltaChunk(resp, ToolCallDelta(calls[i]));
      FramesAppend(opening + CallChunks(resp, calls[..i]), c);
      CallChunksAppend(resp, opening, calls, i);
      out := out + Frame(c);
    }
    assert calls[..|calls|] == calls;
    FramesAppend(opening + CallChunks(resp, calls), FinalChunk(resp));
    out := out + Frame(FinalChunk(resp)) + Done();
  }

  lemma CallChunksAppend(resp: Json, opening: seq<Json>, calls: seq<Json>, i: nat)
    requires i < |calls|
    ensures opening + CallChunks(resp, calls[..i]) + [DeltaChunk(resp, ToolCallDelta(calls[i]))] ==
            opening + CallChunks(resp, calls[..i + 1])
  {
  }

  // --------------------------------------------------------------- assembling a reply

  /** The variables of the assembling loop. */
  datatype Assembly = Assembly(id: Option<string>, model: Option<string>, created: Option<U64>,
                               content: string, reasoning: string, finish: string, usage: Option<Json>)

  const EMPTY: Assembly := Assembly(None, None, None, "", "", "stop", None)

  /** `chunk.choices[0]`. */
  function HeadChoice(chunk: Json): Option<Json> {
    match chunk.Get("choices")
    case None => None
    case Some(choices) => choices.First()
  }

  /** The text a chunk adds under `key` of its delta. */
  function DeltaText(chunk: Json, key: string): string {
    match HeadChoice(chunk)
    case None => ""
    case Some(choice) =>
      match choice.Get("delta")
      case None => ""
      case Some(delta) => GetStr(delta, key).GetOr("")
  }

  /** The finish reason a chunk carries; an empty one does not count. */
  function ChunkFinish(chunk: Json): Option<string> {
    match HeadChoice(chunk)
    case None => None
    case Some(choice) =>
      match GetStr(choice, "finish_reason")
      case None => None
      case Some(reason) => if reason == "" then None else Some(reason)
  }

  function ChunkUsage(chunk: Json): Option<Json> {
    match chunk.Get("usage")
    case None => None
    case Some(u) => if u.Null? then None else Some(u)
  }

  function First<T>(a: Option<T>, b: Option<T>): Option<T> {
    if a.Some? then a else b
  }

  function Absorb(a: Assembly, chunk: Json): Assembly {
    Assembly(First(a.id, GetStr(chunk, "id")), First(a.model, GetStr(chunk, "model")),
             First(a.created, GetU64(chunk, "created")),
             a.content + DeltaText(chunk, "content"), a.reasoning + DeltaText(chunk, "reasoning_content"),
             ChunkFinish(chunk).GetOr(a.finish), First(ChunkUsage(chunk), a.usage))
  }

  function AbsorbAll(a: Assembly, chunks: seq<Json>): Assembly
    decreases |chunks|
  {
    if chunks == [] then a else AbsorbAll(Absorb(a, chunks[0]), chunks[1..])
  }

  function Message(content: string, reasoning: string): Json {
    var m := map["role" := Str("assistant"), "content" := Str(content)];
    Obj(if reasoning == "" then m else m["reasoning_content" := Str(reasoning)])
  }

  function Completion(id: string, created: U64, model: string, message: Json, finish: string): Json {
    Obj(map["id" := Str(id), "object" := Str("chat.completion"), "created" := Num(created), "model" := Str(model),
            "choices" := Arr([Obj(map["index" := Num(0), "message" := message, "finish_reason" := Str(finish)])])])
  }

  function Assembled(a: Assembly): Json {
    var out := Completion(a.id.GetOr("chatcmpl-aipg-codebuddy"), a.created.GetOr(0), a.model.GetOr(""),
                          Message(a.content, a.reasoning), a.finish);
    match a.usage
    case None => out
    case Some(u) => WithUsage(out, u)
  }

  /** What one line means to the assembling loop. */
  datatype Line = Skipped | End | Broken | Data(chunk: Json)

  function ReadLine(line: string): Line {
    var line := Trim(line);
    if !("data:" <= line) then Skipped
    else
      var payload := Trim(line[5..]);
      if payload == "[DONE]" then End
      else
        match JsonText.Parse(payload)
        case None => Broken
        case Some(chunk) => Data(chunk)
  }

  /** The lines up to the end mark; Err if one before it is not JSON. */
  function AbsorbLines(a: Assembly, lines: seq<string>): Result<Assembly, ()>
    decreases |lines|
  {
    if lines == [] then Ok(a)
    else
      match ReadLine(lines[0])
      case Skipped => AbsorbLines(a, lines[1..])
      case End => Ok(a)
      case Broken => Err(())
      case Data(chunk) => AbsorbLines(Absorb(a, chunk), lines[1..])
  }

  function AssembleText(body: string): Result<Json, ()> {
    match AbsorbLines(EMPTY, Lines(body))
    case Ok(a) => Ok(Assembled(a))
    case Err(e) => Err(e)
  }

  method Assemble(body: string) returns (r: Result<Json, ()>)
    ensures r == AssembleText(body)
  {
    var id: Option<string>, model: Option<string>, created: Option<U64> := None, None, None;
    var content, reasoning, finish := "", "", "stop";
    var usage: Option<Json> := None;
    var lines := Lines(body);
    var i := 0;
    while i < |lines|
      invariant 0 <= i <= |lines|
      invariant AbsorbLines(Assembly(id, model, created, content, reasoning, finish, usage), lines[i..])
             == AbsorbLines(EMPTY, lines)
    {
      assert lines[i..][1..] == lines[i + 1..];
      var line := ReadLine(lines[i]);
      i := i + 1;
      match line {
        case Skipped =>
        case End => break;
        case Broken => return Err(());
        case Data(chunk) =>
          if id.None? { id := GetStr(chunk, "id"); }
          if model.None? { model := GetStr(chunk, "model"); }
          if created.None? { created := GetU64(chunk, "created"); }
          content := content + DeltaText(chunk, "content");
          reasoning := reasoning + DeltaText(chunk, "reasoning_content");
          finish := ChunkFinish(chunk).GetOr(finish);
          if ChunkUsage(chunk).Some? { usage := ChunkUsage(chunk); }
      }
    }
    assert AbsorbLines(EMPTY, lines) == Ok(Assembly(id, model, created, content, reasoning, finish, usage));
    return Ok(Assembled(Assembly(id, model, created, content, reasoning, finish, usage)));
  }

  // --------------------------------------------------------- printing then assembling

  /** A chunk whose printed text the parser accepts. */
  ghost predicate Readable(chunk: Json) {
    chunk.Obj? && JsonText.Fits(chunk, JsonText.RECURSION_LIMIT)
  }

  lemma PayloadIsTight(chunk: Json)
    requires chunk.Obj?
    ensures Tight(JsonText.Print(chunk)) && JsonText.Print(chunk)[0] == '{'
  {
    var s := JsonText.Print(chunk);
    assert s[0] == '{' && s[|s| - 1] == '}';
  }

  lemma ReadDataLine(chunk: Json)
    requires Readable(chunk)
    ensures ReadLine("data: " + JsonText.Print(chunk)) == Data(chunk)
  {
    PayloadIsTight(chunk);
    JsonText.RoundTrip(chunk);
    ReadPayload(JsonText.Print(chunk), chunk);
  }

  lemma ReadPayload(s: string, chunk: Json)
    requires Tight(s) && s != "" && s[0] == '{' && JsonText.Parse(s) == Some(chunk)
    ensures ReadLine("data: " + s) == Data(chunk)
  {
    TrimTight(s);
    TrimTight("data: " + s);
    assert ("data: " + s)[5..] == [' '] + s;
  }

  lemma ReadMarks()
    ensures ReadLine("data: [DONE]") == End && ReadLine("") == Skipped
  {
    TrimTight("[DONE]");
    TrimTight("data: [DONE]");
    assert "data: [DONE]"[5..] == [' '] + "[DONE]";
  }

  /** A printed frame is read as its chunk, whatever follows it. */
  lemma LinesOfFrame(chunk: Json, rest: string)
    requires Readable(chunk)
    ensures Lines(Frame(chunk) + rest) == ["data: " + JsonText.Print(chunk), ""] + Lines(rest)
  {
    var line := "data: " + JsonText.Print(chunk);
    JsonText.PrintOneLine(chunk);
    PayloadIsTight(chunk);
    LinesFirst(line, ['\n'] + rest);
    LinesFirst("", rest);
    assert Frame(chunk) + rest == line + ['\n'] + (['\n'] + rest);
    assert ['\n'] + rest == "" + ['\n'] + rest;
  }

  lemma LinesOfDone(rest: string)
    ensures Lines(Done() + rest) == ["data: [DONE]", ""] + Lines(rest)
  {
    LinesFirst("data: [DONE]", ['\n'] + rest);
    LinesFirst("", rest);
    assert Done() + rest == "data: [DONE]" + ['\n'] + (['\n'] + rest);
    assert ['\n'] + rest == "" + ['\n'] + rest;
  }

  /** Assembling printed frames absorbs exactly the chunks that were printed; what stands after
      the end mark does not matter. */
  lemma {:induction false} AbsorbFrames(a: Assembly, chunks: seq<Json>, rest: string)
    requires forall c :: c in chunks ==> Readable(c)
    ensures AbsorbLines(a, Lines(Frames(chunks) + (Done() + rest))) == Ok(AbsorbAll(a, chunks))
    decreases |chunks|
  {
    ReadMarks();
    if chunks == [] {
      assert Frames(chunks) + (Done() + rest) == Done() + rest;
      LinesOfDone(rest);
    } else {
      var tail := Frames(chunks[1..]) + (Done() + rest);
      assert Frames(chunks) + (Done() + rest) == Frame(chunks[0]) + tail;
      LinesOfFrame(chunks[0], tail);
      ReadDataLine(chunks[0]);
      AbsorbFrames(Absorb(a, chunks[0]), chunks[1..], rest);
      AbsorbTwoLines(a, chunks[0], "data: " + JsonText.Print(chunks[0]), "", Lines(tail));
    }
  }

  lemma AbsorbTwoLines(a: Assembly, chunk: Json, line: string, blank: string, rest: seq<string>)
    requires ReadLine(line) == Data(chunk) && ReadLine(blank) == Skipped
    ensures AbsorbLines(a, [line, blank] + rest) == AbsorbLines(Absorb(a, chunk), rest)
  {
    assert ([line, blank] + rest)[1..] == [blank] + rest && ([blank] + rest)[1..] == rest;
  }

  lemma DeltaFits(resp: Json, delta: Json)
    requires JsonText.Fits(delta, 100)
    ensures Readable(DeltaChunk(resp, delta))
  {
    JsonText.FitsMore(delta, 100, 125);
    var choice := Obj(map["index" := Num(0), "delta" := delta, "finish_reason" := Null]);
    assert JsonText.Fits(choice, 126);
    assert JsonText.Fits(Arr([choice]), 127);
  }

  lemma FinalFits(resp: Json)
    ensures Readable(FinalChunk(resp))
  {
    var (pt, ct) := ExtractUsage(resp);
    WithUsageFits(ReplyId(resp), ReplyCreated(resp), ReplyModel(resp), StreamedFinish(resp), pt, ct);
  }

  lemma WithUsageFits(id: string, created: U64, model: string, finish: string, pt: U64, ct: U64)
    ensures Readable(WithUsage(Chunk(id, created, model, Obj(map[]), Str(finish)), UsageOf(pt, ct)))
  {
    assert JsonText.Fits(UsageOf(pt, ct), 127);
    var choice := Obj(map["index" := Num(0), "delta" := Obj(map[]), "finish_reason" := Str(finish)]);
    assert JsonText.Fits(choice, 126);
    assert JsonText.Fits(Arr([choice]), 127);
  }

  lemma ChunksAreReadable(resp: Json)
    ensures forall c :: c in Chunks(resp) ==> Readable(c)
  {
    DeltaFits(resp, Obj(map["role" := Str("assistant"), "content" := Str("")]));
    DeltaFits(resp, Obj(map["content" := Str(ReplyText(resp))]));
    FinalFits(resp);
    CallChunksAreReadable(resp, ReplyCalls(resp));
  }

  lemma CallChunksAreReadable(resp: Json, calls: seq<Json>)
    ensures forall c :: c in CallChunks(resp, calls) ==> Readable(c)
  {
    forall i | 0 <= i < |calls|
      ensures Readable(CallChunks(resp, calls)[i])
    {
      CallDeltaFits(calls[i]);
      DeltaFits(resp, ToolCallDelta(calls[i]));
    }
  }

  lemma CallDeltaFits(call: Json)
    ensures JsonText.Fits(ToolCallDelta(call), 100)
  {
    var f := Obj(map["name" := Str(CallName(call)), "arguments" := Str(CallArguments(call))]);
    assert JsonText.Fits(f, 97);
    var c := Obj(map["index" := Num(GetU64(call, "index").GetOr(0)), "id" := Str(CallId(call)),
                     "type" := Str("function"),
                     "function" := f]);
    assert JsonText.Fits(c, 98);
    assert JsonText.Fits(Arr([c]), 99);
  }

  // ------------------------------------------------------- what absorbing depends on

  ghost function AllText(chunks: seq<Json>, key: string): string {
    if chunks == [] then "" else DeltaText(chunks[0], key) + AllText(chunks[1..], key)
  }

  /** The first chunk field that is present. */
  ghost function FirstOf<T>(chunks: seq<Json>, field: Json -> Option<T>): Option<T> {
    if chunks == [] then None else First(field(chunks[0]), FirstOf(chunks[1..], field))
  }

  ghost function LastOf<T>(chunks: seq<Json>, field: Json -> Option<T>): Option<T> {
    if chunks == [] then None else First(LastOf(chunks[1..], field), field(chunks[0]))
  }

  /** The loop in closed form: the first id, model and creation time, the deltas joined in order,
      the last finish reason that is not empty, the last usage that is not null. */
  lemma {:induction false} AbsorbAllClosed(a: Assembly, chunks: seq<Json>)
    ensures AbsorbAll(a, chunks) == Assembly(
      First(a.id, FirstOf(chunks, c => GetStr(c, "id"))),
      First(a.model, FirstOf(chunks, c => GetStr(c, "model"))),
      First(a.created, FirstOf(chunks, c => GetU64(c, "created"))),
      a.content + AllText(chunks, "content"), a.reasoning + AllText(chunks, "reasoning_content"),
      LastOf(chunks, ChunkFinish).GetOr(a.finish), First(LastOf(chunks, ChunkUsage), a.usage))
    decreases |chunks|
  {
    if chunks != [] {
      AbsorbAllClosed(Absorb(a, chunks[0]), chunks[1..]);
    }
  }

  // ------------------------------------------------------------------ the normaliser

  /** What is left of a reply after streaming it and assembling the stream: one text-only choice. */
  function Normalized(resp: Json): Json {
    var (pt, ct) := ExtractUsage(resp);
    WithUsage(Completion(ReplyId(resp), ReplyCreated(resp), ReplyModel(resp), Message(ReplyText(resp), ""),
                         StreamedFinish(resp)), UsageOf(pt, ct))
  }

  lemma {:induction false} AbsorbAllAppend(a: Assembly, cs: seq<Json>, ds: seq<Json>)
    ensures AbsorbAll(a, cs + ds) == AbsorbAll(AbsorbAll(a, cs), ds)
    decreases |cs|
  {
    if cs == [] {
      assert cs + ds == ds;
    } else {
      assert (cs + ds)[1..] == cs[1..] + ds;
      AbsorbAllAppend(Absorb(a, cs[0]), cs[1..], ds);
    }
  }

  lemma AbsorbDelta(a: Assembly, resp: Json, delta: Json)
    ensures Absorb(a, DeltaChunk(resp, delta)) ==
      Assembly(First(a.id, Some(ReplyId(resp))), First(a.model, Some(ReplyModel(resp))),
               First(a.created, Some(ReplyCreated(resp))),
               a.content + GetStr(delta, "content").GetOr(""),
               a.reasoning + GetStr(delta, "reasoning_content").GetOr(""),
               a.finish, a.usage)
  {
    var chunk := DeltaChunk(resp, delta);
    assert HeadChoice(chunk) == Some(Obj(map["index" := Num(0), "delta" := delta, "finish_reason" := Null]));
    assert GetStr(HeadChoice(chunk).value, "finish_reason") == None;
  }

  lemma {:induction false} AbsorbCalls(a: Assembly, resp: Json, calls: seq<Json>)
    requires a.id.Some? && a.model.Some? && a.created.Some?
    ensures AbsorbAll(a, CallChunks(resp, calls)) == a
    decreases |calls|
  {
    if calls != [] {
      AbsorbDelta(a, resp, ToolCallDelta(calls[0]));
      assert a.content + "" == a.content && a.reasoning + "" == a.reasoning;
      assert CallChunks(resp, calls)[1..] == CallChunks(resp, calls[1..]);
      AbsorbCalls(a, resp, calls[1..]);
    }
  }

  lemma AbsorbFinal(a: Assembly, resp: Json)
    requires a.id.Some? && a.model.Some? && a.created.Some?
    ensures Absorb(a, FinalChunk(resp)) ==
      a.(finish := StreamedFinish(resp), usage := Some(UsageOf(ExtractUsage(resp).0, ExtractUsage(resp).1)))
  {
    var chunk := FinalChunk(resp);
    assert HeadChoice(chunk) ==
      Some(Obj(map["index" := Num(0), "delta" := Obj(map[]), "finish_reason" := Str(StreamedFinish(resp))]));
    assert a.content + "" == a.content && a.reasoning + "" == a.reasoning;
  }

  lemma AbsorbOpening(resp: Json)
    ensures AbsorbAll(EMPTY, OpeningChunks(resp)) ==
      Assembly(Some(ReplyId(resp)), Some(ReplyModel(resp)), Some(ReplyCreated(resp)), ReplyText(resp), "", "stop", None)
  {
    var role := Obj(map["role" := Str("assistant"), "content" := Str("")]);
    AbsorbDelta(EMPTY, resp, role);
    var a := Absorb(EMPTY, RoleChunk(resp));
    AbsorbAllAppend(EMPTY, [RoleChunk(resp)], OpeningChunks(resp)[1..]);
    assert OpeningChunks(resp) == [RoleChunk(resp)] + OpeningChunks(resp)[1..];
    if ReplyText(resp) != "" {
      AbsorbDelta(a, resp, Obj(map["content" := Str(ReplyText(resp))]));
      assert OpeningChunks(resp)[1..] == [TextChunk(resp)];
      assert AbsorbAll(a, [TextChunk(resp)]) == Absorb(a, TextChunk(resp));
    }
  }

  /** Streaming a reply and assembling the stream gives its normal form, for every reply. */
  lemma PrintedStreamAssembles(resp: Json)
    ensures AssembleText(Frames(Chunks(resp)) + Done()) == Ok(Normalized(resp))
  {
    ChunksAreReadable(resp);
    AbsorbFrames(EMPTY, Chunks(resp), "");
    assert Done() + "" == Done();
    AbsorbOpening(resp);
    var a := AbsorbAll(EMPTY, OpeningChunks(resp));
    AbsorbCalls(a, resp, ReplyCalls(resp));
    AbsorbFinal(a, resp);
    AbsorbAllAppend(EMPTY, OpeningChunks(resp), CallChunks(resp, ReplyCalls(resp)));
    AbsorbAllAppend(EMPTY, OpeningChunks(resp) + CallChunks(resp, ReplyCalls(resp)), [FinalChunk(resp)]);
    assert AbsorbAll(a, [FinalChunk(resp)]) == Absorb(a, FinalChunk(resp));
  }

  /** A text-only reply as the stream can carry it. */
  datatype Plain = Plain(id: string, created: U64, model: string, text: string, finish: string, pt: U64, ct: U64)

  predicate IsPlain(p: Plain) {
    p.finish in {"stop", "length", "tool_calls"}
  }

  function PlainReply(p: Plain): Json {
    WithUsage(Completion(p.id, p.created, p.model, Message(p.text, ""), p.finish), UsageOf(p.pt, p.ct))
  }

  ghost predicate InNormalForm(resp: Json) {
    exists p :: IsPlain(p) && resp == PlainReply(p)
  }

  lemma PlainUnchanged(p: Plain)
    requires IsPlain(p)
    ensures Normalized(PlainReply(p)) == PlainReply(p)
  {
    var resp := PlainReply(p);
    assert ReplyId(resp) == p.id && ReplyModel(resp) == p.model && ReplyCreated(resp) == p.created;
    var choice := Obj(map["index" := Num(0), "message" := Message(p.text, ""), "finish_reason" := Str(p.finish)]);
    assert GetArr(resp, "choices") == Some([choice]);
    assert GetStr(Message(p.text, ""), "content") == Some(p.text);
    assert FirstChoice(resp) == Some(Choice(p.text, [], Some(p.finish)));
    assert resp.Get("usage") == Some(UsageOf(p.pt, p.ct));
    assert ExtractUsage(resp) == (p.pt, p.ct);
  }

  lemma NormalizedInForm(resp: Json)
    ensures InNormalForm(Normalized(resp))
  {
    var (pt, ct) := ExtractUsage(resp);
    var p := Plain(ReplyId(resp), ReplyCreated(resp), ReplyModel(resp), ReplyText(resp), StreamedFinish(resp), pt, ct);
    assert IsPlain(p) && Normalized(resp) == PlainReply(p);
  }

  /** The replies that survive streaming unchanged are exactly the text-only ones in normal form,
      and streaming twice changes nothing more. */
  lemma NormalizedIsNormal(resp: Json)
    ensures Normalized(Normalized(resp)) == Normalized(resp)
    ensures Normalized(resp) == resp <==> InNormalForm(resp)
  {
    NormalizedInForm(resp);
    forall p | IsPlain(p)
      ensures Normalized(PlainReply(p)) == PlainReply(p)
    {
      PlainUnchanged(p);
    }
  }

  // -------------------------------------------------------------------- re-chunking

  /** The chunks of one delta text cut into pieces; `key` is "content" or "reasoning_content". */
  function PieceChunks(id: string, created: U64, model: string, key: string, pieces: seq<string>): seq<Json> {
    seq(|pieces|, i requires 0 <= i < |pieces| => Chunk(id, created, model, Obj(map[key := Str(pieces[i])]), Null))
  }

  lemma AbsorbPiece(a: Assembly, id: string, created: U64, model: string, key: string, piece: string)
    ensures Absorb(a, Chunk(id, created, model, Obj(map[key := Str(piece)]), Null)) ==
      Assembly(First(a.id, Some(id)), First(a.model, Some(model)), First(a.created, Some(created)),
               a.content + (if key == "content" then piece else ""),
               a.reasoning + (if key == "reasoning_content" then piece else ""), a.finish, a.usage)
  {
    var delta := Obj(map[key := Str(piece)]);
    var chunk := Chunk(id, created, model, delta, Null);
    assert HeadChoice(chunk) == Some(Obj(map["index" := Num(0), "delta" := delta, "finish_reason" := Null]));
    assert GetStr(HeadChoice(chunk).value, "finish_reason") == None;
  }

  lemma {:induction false} AbsorbPieces(a: Assembly, id: string, created: U64, model: string, key: string,
                                        pieces: seq<string>)
    requires pieces != []
    ensures AbsorbAll(a, PieceChunks(id, created, model, key, pieces)) ==
      Absorb(a, Chunk(id, created, model, Obj(map[key := Str(Concat(pieces))]), Null))
    decreases |pieces|
  {
    var cs := PieceChunks(id, created, model, key, pieces);
    AbsorbPiece(a, id, created, model, key, pieces[0]);
    AbsorbPiece(a, id, created, model, key, Concat(pieces));
    var b := Absorb(a, cs[0]);
    assert cs[1..] == PieceChunks(id, created, model, key, pieces[1..]);
    if |pieces| == 1 {
      assert Concat(pieces) == pieces[0] + Concat([]);
      assert pieces[0] + "" == pieces[0];
    } else {
      AbsorbPieces(b, id, created, model, key, pieces[1..]);
      AbsorbPiece(b, id, created, model, key, Concat(pieces[1..]));
      Associates(a.content, pieces[0], Concat(pieces[1..]));
      Associates(a.reasoning, pieces[0], Concat(pieces[1..]));
    }
  }

  lemma Associates(a: string, b: string, c: string)
    ensures a + b + c == a + (b + c) && a + "" + "" == a + ""
  {
  }

  /** Where an upstream cuts its text never shows in the assembled reply. */
  lemma RechunkingIsInvisible(before: seq<Json>, after: seq<Json>, id: string, created: U64, model: string,
                              key: string, pieces: seq<string>)
    requires pieces != []
    ensures
      var whole := Chunk(id, created, model, Obj(map[key := Str(Concat(pieces))]), Null);
      Assembled(AbsorbAll(EMPTY, before + PieceChunks(id, created, model, key, pieces) + after)) ==
      Assembled(AbsorbAll(EMPTY, before + [whole] + after))
  {
    var whole := Chunk(id, created, model, Obj(map[key := Str(Concat(pieces))]), Null);
    var cut := PieceChunks(id, created, model, key, pieces);
    AbsorbAllAppend(EMPTY, before + cut, after);
    AbsorbAllAppend(EMPTY, before, cut);
    AbsorbAllAppend(EMPTY, before + [whole], after);
    AbsorbAllAppend(EMPTY, before, [whole]);
    var a := AbsorbAll(EMPTY, before);
    AbsorbPieces(a, id, created, model, key, pieces);
    assert AbsorbAll(a, [whole]) == Absorb(a, whole);
  }

  // ---------------------------------------------------------------- field by field

  /** What a reply holds, at its own fields. */
  ghost function ReplyMessage(resp: Json): Option<Json> {
    Field(Item(Field(Some(resp), "choices"), 0), "message")
  }

  /** Which fields of a reply are read, and what is taken for a missing one. */
  lemma ReplyFields(resp: Json)
    ensures ReplyText(resp) == TextIn(Field(ReplyMessage(resp), "content")).GetOr("")
    ensures ReplyCalls(resp) == ItemsIn(Field(ReplyMessage(resp), "tool_calls")).GetOr([])
    ensures
      var finish := TextIn(Field(Item(Field(Some(resp), "choices"), 0), "finish_reason"));
      StreamedFinish(resp) ==
      if ReplyMessage(resp).Some? && finish in {Some("tool_calls"), Some("length")} then finish.value else "stop"
    ensures ReplyId(resp) == TextIn(Field(Some(resp), "id")).GetOr("chatcmpl-mock")
    ensures ReplyModel(resp) == TextIn(Field(Some(resp), "model")).GetOr("default")
    ensures ReplyCreated(resp) == NumberIn(Field(Some(resp), "created")).GetOr(0)
    ensures
      var usage := Field(Some(resp), "usage");
      ExtractUsage(resp) ==
      (NumberIn(Field(usage, "prompt_tokens")).GetOr(0), NumberIn(Field(usage, "completion_tokens")).GetOr(0))
  {
  }

  /** Which fields of a chunk the assembler reads. */
  lemma ChunkFields(chunk: Json, key: string)
    ensures
      var choice := Item(Field(Some(chunk), "choices"), 0);
      var finish := TextIn(Field(choice, "finish_reason"));
      var usage := Field(Some(chunk), "usage");
      DeltaText(chunk, key) == TextIn(Field(Field(choice, "delta"), key)).GetOr("") &&
      ChunkFinish(chunk) == (if finish == Some("") then None else finish) &&
      ChunkUsage(chunk) == (if usage == Some(Null) then None else usage)
  {
  }

  /** The fields of an assembled reply: each holds its own part, and the reasoning is there exactly
      if there is any. */
  lemma AssembledFields(a: Assembly)
    ensures
      var out := Some(Assembled(a));
      var choice := Item(Field(out, "choices"), 0);
      var message := Field(choice, "message");
      TextIn(Field(out, "id")) == Some(a.id.GetOr("chatcmpl-aipg-codebuddy")) &&
      TextIn(Field(out, "model")) == Some(a.model.GetOr("")) &&
      NumberIn(Field(out, "created")) == Some(a.created.GetOr(0)) &&
      TextIn(Field(choice, "finish_reason")) == Some(a.finish) &&
      TextIn(Field(message, "role")) == Some("assistant") &&
      TextIn(Field(message, "content")) == Some(a.content) &&
      Field(message, "reasoning_content") == (if a.reasoning == "" then None else Some(Str(a.reasoning))) &&
      Field(out, "usage") == a.usage
  {
    var m := Message(a.content, a.reasoning);
    assert Field(Some(m), "content") == Some(Str(a.content)) && Field(Some(m), "role") == Some(Str("assistant"));
    var choice := Obj(map["index" := Num(0), "message" := m, "finish_reason" := Str(a.finish)]);
    assert Field(Some(choice), "message") == Some(m);
    assert Field(Some(Assembled(a)), "choices") == Some(Arr([choice]));
  }

  /** The normal form of a reply, which is what a client assembles from its stream, field by field
      against the reply. */
  lemma NormalizedFields(resp: Json)
    ensures
      var out := Some(Normalized(resp));
      var message := Field(Item(Field(out, "choices"), 0), "message");
      TextIn(Field(message, "content")) == Some(TextIn(Field(ReplyMessage(resp), "content")).GetOr("")) &&
      TextIn(Field(out, "id")) == Some(TextIn(Field(Some(resp), "id")).GetOr("chatcmpl-mock")) &&
      TextIn(Field(out, "model")) == Some(TextIn(Field(Some(resp), "model")).GetOr("default")) &&
      NumberIn(Field(out, "created")) == Some(NumberIn(Field(Some(resp), "created")).GetOr(0))
    ensures
      var was, now := Field(Some(resp), "usage"), Field(Some(Normalized(resp)), "usage");
      NumberIn(Field(now, "prompt_tokens")) == Some(NumberIn(Field(was, "prompt_tokens")).GetOr(0)) &&
      NumberIn(Field(now, "completion_tokens")) == Some(NumberIn(Field(was, "completion_tokens")).GetOr(0))
  {
    var (pt, ct) := ExtractUsage(resp);
    var a := Assembly(Some(ReplyId(resp)), Some(ReplyModel(resp)), Some(ReplyCreated(resp)), ReplyText(resp), "",
                      StreamedFinish(resp), Some(UsageOf(pt, ct)));
    assert Normalized(resp) == Assembled(a);
    AssembledFields(a);
    ReplyFields(resp);
    UsageFields(pt, ct);
  }

  lemma UsageFields(pt: U64, ct: U64)
    ensures NumberIn(Field(Some(UsageOf(pt, ct)), "prompt_tokens")) == Some(pt)
    ensures NumberIn(Field(Some(UsageOf(pt, ct)), "completion_tokens")) == Some(ct)
    ensures NumberIn(Field(Some(UsageOf(pt, ct)), "total_tokens")) == Some((pt + ct) % U64_BOUND)
  {
  }

  /** What every chunk of a reply's stream says of the reply, whatever it adds. */
  ghost predicate ChunkOf(resp: Json, chunk: Json) {
    var c := Some(chunk);
    TextIn(Field(c, "object")) == Some("chat.completion.chunk") &&
    TextIn(Field(c, "id")) == Some(TextIn(Field(Some(resp), "id")).GetOr("chatcmpl-mock")) &&
    TextIn(Field(c, "model")) == Some(TextIn(Field(Some(resp), "model")).GetOr("default")) &&
    NumberIn(Field(c, "created")) == Some(NumberIn(Field(Some(resp), "created")).GetOr(0)) &&
    NumberIn(Field(Item(Field(c, "choices"), 0), "index")) == Some(0)
  }

  lemma ChunkHolds(resp: Json, delta: Json, finish: Json)
    ensures
      var chunk := Chunk(ReplyId(resp), ReplyCreated(resp), ReplyModel(resp), delta, finish);
      var choice := Item(Field(Some(chunk), "choices"), 0);
      ChunkOf(resp, chunk) && Field(choice, "delta") == Some(delta) && Field(choice, "finish_reason") == Some(finish)
  {
    ChunkParts(ReplyId(resp), ReplyCreated(resp), ReplyModel(resp), delta, finish);
    ReplyFields(resp);
  }

  lemma ChunkParts(id: string, created: U64, model: string, delta: Json, finish: Json)
    ensures
      var c := Some(Chunk(id, created, model, delta, finish));
      var choice := Item(Field(c, "choices"), 0);
      TextIn(Field(c, "object")) == Some("chat.completion.chunk") && TextIn(Field(c, "id")) == Some(id) &&
      TextIn(Field(c, "model")) == Some(model) && NumberIn(Field(c, "created")) == Some(created) &&
      NumberIn(Field(choice, "index")) == Some(0) && Field(choice, "delta") == Some(delta) &&
      Field(choice, "finish_reason") == Some(finish)
  {
    var choice := Obj(map["index" := Num(0), "delta" := delta, "finish_reason" := finish]);
    assert Field(Some(choice), "delta") == Some(delta) && Field(Some(choice), "finish_reason") == Some(finish);
    assert Field(Some(choice), "index") == Some(Num(0));
    assert Field(Some(Chunk(id, created, model, delta, finish)), "choices") == Some(Arr([choice]));
  }

  /** A chunk of the stream that ends nothing. */
  ghost predicate GoesOn(resp: Json, chunk: Json) {
    ChunkOf(resp, chunk) && Field(Item(Field(Some(chunk), "choices"), 0), "finish_reason") == Some(Null)
  }

  lemma DeltaGoesOn(resp: Json, delta: Json)
    ensures GoesOn(resp, DeltaChunk(resp, delta))
  {
    ChunkHolds(resp, delta, Null);
  }

  lemma AllGoOn(resp: Json)
    ensures forall c :: c in OpeningChunks(resp) + CallChunks(resp, ReplyCalls(resp)) ==> GoesOn(resp, c)
  {
    DeltaGoesOn(resp, Obj(map["role" := Str("assistant"), "content" := Str("")]));
    DeltaGoesOn(resp, Obj(map["content" := Str(ReplyText(resp))]));
    var calls := ReplyCalls(resp);
    forall i | 0 <= i < |calls|
      ensures GoesOn(resp, CallChunks(resp, calls)[i])
    {
      DeltaGoesOn(resp, ToolCallDelta(calls[i]));
    }
  }

  /** The first chunk gives the role; the last one gives the finish reason and the usage, and no other
      gives a finish reason. */
  lemma ChunksHold(resp: Json)
    ensures
      var chunks := Chunks(resp);
      var first, last := Some(chunks[0]), Some(chunks[|chunks| - 1]);
      |chunks| >= 2 && (forall i :: 0 <= i < |chunks| - 1 ==> GoesOn(resp, chunks[i])) &&
      TextIn(Field(Field(Item(Field(first, "choices"), 0), "delta"), "role")) == Some("assistant") &&
      ChunkOf(resp, chunks[|chunks| - 1]) &&
      TextIn(Field(Item(Field(last, "choices"), 0), "finish_reason")) == Some(StreamedFinish(resp)) &&
      Field(last, "usage") == Some(UsageOf(ExtractUsage(resp).0, ExtractUsage(resp).1))
  {
    AllGoOn(resp);
    var before := OpeningChunks(resp) + CallChunks(resp, ReplyCalls(resp));
    assert forall i :: 0 <= i < |before| ==> Chunks(resp)[i] == before[i] && before[i] in before;
    ChunkHolds(resp, Obj(map["role" := Str("assistant"), "content" := Str("")]), Null);
    LastChunkHolds(resp);
  }

  lemma LastChunkHolds(resp: Json)
    ensures
      var last := Some(FinalChunk(resp));
      ChunkOf(resp, FinalChunk(resp)) &&
      TextIn(Field(Item(Field(last, "choices"), 0), "finish_reason")) == Some(StreamedFinish(resp)) &&
      Field(last, "usage") == Some(UsageOf(ExtractUsage(resp).0, ExtractUsage(resp).1))
  {
    ChunkHolds(resp, Obj(map[]), Str(StreamedFinish(resp)));
    var (pt, ct) := ExtractUsage(resp);
    var plain := Chunk(ReplyId(resp), ReplyCreated(resp), ReplyModel(resp), Obj(map[]), Str(StreamedFinish(resp)));
    OtherFieldsStay(plain, UsageOf(pt, ct));
  }

  lemma OtherFieldsStay(chunk: Json, usage: Json)
    requires chunk.Obj?
    ensures Field(Some(WithUsage(chunk, usage)), "usage") == Some(usage)
    ensures forall key :: key != "usage" ==> Field(Some(WithUsage(chunk, usage)), key) == Field(Some(chunk), key)
  {
  }

  // ------------------------------------------------------------ the calls in a stream

  /** What a client reads of one tool call. */
  datatype SeenCall = SeenCall(index: Option<U64>, id: Option<string>, kind: Option<string>, name: Option<string>,
                               arguments: Option<string>)

  ghost function SeenIn(entry: Json): SeenCall {
    var e := Some(entry);
    SeenCall(NumberIn(Field(e, "index")), TextIn(Field(e, "id")), TextIn(Field(e, "type")),
             TextIn(Field(Field(e, "function"), "name")), TextIn(Field(Field(e, "function"), "arguments")))
  }

  /** The tool calls in the delta of a chunk. */
  ghost function CallsSeen(chunk: Json): seq<SeenCall> {
    var entries := ItemsIn(Field(Field(Item(Field(Some(chunk), "choices"), 0), "delta"), "tool_calls")).GetOr([]);
    seq(|entries|, i requires 0 <= i < |entries| => SeenIn(entries[i]))
  }

  /** The tool calls in the lines of a stream, up to its end mark. */
  ghost function StreamCalls(lines: seq<string>): seq<SeenCall>
    decreases |lines|
  {
    if lines == [] then []
    else
      match ReadLine(lines[0])
      case Data(chunk) => CallsSeen(chunk) + StreamCalls(lines[1..])
      case Skipped => StreamCalls(lines[1..])
      case _ => []
  }

  /** What a client should read of a call of the reply. */
  ghost function Shown(call: Json): SeenCall {
    var c := Some(call);
    SeenCall(Some(NumberIn(Field(c, "index")).GetOr(0)), Some(TextIn(Field(c, "id")).GetOr("call_0")), Some("function"),
             Some(TextIn(Field(Field(c, "function"), "name")).GetOr("")),
             Some(TextIn(Field(Field(c, "function"), "arguments")).GetOr("")))
  }

  ghost function AllSeen(chunks: seq<Json>): seq<SeenCall> {
    if chunks == [] then [] else CallsSeen(chunks[0]) + AllSeen(chunks[1..])
  }

  lemma {:induction false} AllSeenAppend(a: seq<Json>, b: seq<Json>)
    ensures AllSeen(a + b) == AllSeen(a) + AllSeen(b)
  {
    if a == [] {
      assert a + b == b;
    } else {
      assert (a + b)[1..] == a[1..] + b;
      AllSeenAppend(a[1..], b);
    }
  }

  lemma StreamCallsTwoLines(chunk: Json, line: string, blank: string, rest: seq<string>)
    requires ReadLine(line) == Data(chunk) && ReadLine(blank) == Skipped
    ensures StreamCalls([line, blank] + rest) == CallsSeen(chunk) + StreamCalls(rest)
  {
    assert ([line, blank] + rest)[1..] == [blank] + rest && ([blank] + rest)[1..] == rest;
  }

  lemma {:induction false} FramesShowCalls(chunks: seq<Json>)
    requires forall c :: c in chunks ==> Readable(c)
    ensures StreamCalls(Lines(Frames(chunks) + Done())) == AllSeen(chunks)
    decreases |chunks|
  {
    ReadMarks();
    if chunks == [] {
      assert Frames(chunks) + Done() == Done() && Done() + "" == Done();
      LinesOfDone("");
    } else {
      var tail := Frames(chunks[1..]) + Done();
      assert Frames(chunks) + Done() == Frame(chunks[0]) + tail;
      LinesOfFrame(chunks[0], tail);
      ReadDataLine(chunks[0]);
      FramesShowCalls(chunks[1..]);
      StreamCallsTwoLines(chunks[0], "data: " + JsonText.Print(chunks[0]), "", Lines(tail));
    }
  }

  lemma DeltaSeen(id: string, created: U64, model: string, delta: Json, finish: Json)
    ensures
      var entries := ItemsIn(Field(Some(delta), "tool_calls")).GetOr([]);
      CallsSeen(Chunk(id, created, model, delta, finish)) ==
      seq(|entries|, i requires 0 <= i < |entries| => SeenIn(entries[i]))
  {
    var choice := Obj(map["index" := Num(0), "delta" := delta, "finish_reason" := finish]);
    assert Field(Some(choice), "delta") == Some(delta);
    assert Field(Some(Chunk(id, created, model, delta, finish)), "choices") == Some(Arr([choice]));
  }

  lemma CallDeltaSeen(resp: Json, call: Json)
    ensures CallsSeen(DeltaChunk(resp, ToolCallDelta(call))) == [Shown(call)]
  {
    var delta := ToolCallDelta(call);
    var f := Obj(map["name" := Str(CallName(call)), "arguments" := Str(CallArguments(call))]);
    var entry := delta.fields["tool_calls"].items[0];
    assert Field(Some(delta), "tool_calls") == Some(Arr([entry]));
    assert Field(Some(entry), "function") == Some(f);
    assert SeenIn(entry) == Shown(call);
    DeltaSeen(ReplyId(resp), ReplyCreated(resp), ReplyModel(resp), delta, Null);
  }

  /** One for each call, in order. */
  ghost function ShownAll(calls: seq<Json>): seq<SeenCall> {
    seq(|calls|, i requires 0 <= i < |calls| => Shown(calls[i]))
  }

  lemma {:induction false} CallChunksSeen(resp: Json, calls: seq<Json>)
    ensures AllSeen(CallChunks(resp, calls)) == ShownAll(calls)
  {
    if calls == [] {
      assert CallChunks(resp, calls) == [];
    } else {
      var chunks := CallChunks(resp, calls);
      CallChunksFirst(resp, calls);
      CallDeltaSeen(resp, calls[0]);
      CallChunksSeen(resp, calls[1..]);
      ShownFirst(calls);
      assert AllSeen(chunks) == CallsSeen(chunks[0]) + AllSeen(chunks[1..]);
    }
  }

  lemma ShownFirst(calls: seq<Json>)
    requires calls != []
    ensures ShownAll(calls) == [Shown(calls[0])] + ShownAll(calls[1..])
  {
  }

  lemma CallChunksFirst(resp: Json, calls: seq<Json>)
    requires calls != []
    ensures
      var chunks := CallChunks(resp, calls);
      chunks != [] && chunks[0] == DeltaChunk(resp, ToolCallDelta(calls[0])) &&
      chunks[1..] == CallChunks(resp, calls[1..])
  {
  }

  lemma OpeningShowsNone(resp: Json)
    ensures AllSeen(OpeningChunks(resp)) == [] && AllSeen([FinalChunk(resp)]) == []
  {
    var (id, created, model) := (ReplyId(resp), ReplyCreated(resp), ReplyModel(resp));
    DeltaSeen(id, created, model, Obj(map["role" := Str("assistant"), "content" := Str("")]), Null);
    DeltaSeen(id, created, model, Obj(map["content" := Str(ReplyText(resp))]), Null);
    DeltaSeen(id, created, model, Obj(map[]), Str(StreamedFinish(resp)));
    var plain := Chunk(id, created, model, Obj(map[]), Str(StreamedFinish(resp)));
    var (pt, ct) := ExtractUsage(resp);
    assert CallsSeen(plain) == [];
    assert Field(Some(FinalChunk(resp)), "choices") == Field(Some(plain), "choices");
    assert CallsSeen(FinalChunk(resp)) == [];
    assert AllSeen([FinalChunk(resp)][1..]) == [];
    assert OpeningChunks(resp)[0] == RoleChunk(resp) && CallsSeen(RoleChunk(resp)) == [];
    if ReplyText(resp) != "" {
      assert OpeningChunks(resp)[1..] == [TextChunk(resp)] && [TextChunk(resp)][1..] == [];
      assert CallsSeen(TextChunk(resp)) == [];
    }
  }

  lemma ChunksShowCalls(resp: Json)
    ensures AllSeen(Chunks(resp)) == ShownAll(ReplyCalls(resp))
  {
    OpeningShowsNone(resp);
    CallChunksSeen(resp, ReplyCalls(resp));
    AllSeenAppend(OpeningChunks(resp), CallChunks(resp, ReplyCalls(resp)));
    AllSeenAppend(OpeningChunks(resp) + CallChunks(resp, ReplyCalls(resp)), [FinalChunk(resp)]);
  }

  /** A client that collects the tool calls of a printed stream gets, in order, exactly one per call
      of the reply, with its index (or 0), id, name and arguments. */
  lemma StreamShowsCalls(resp: Json)
    ensures StreamCalls(Lines(Frames(Chunks(resp)) + Done())) ==
            ShownAll(ItemsIn(Field(ReplyMessage(resp), "tool_calls")).GetOr([]))
  {
    ReplyFields(resp);
    ChunksAreReadable(resp);
    FramesShowCalls(Chunks(resp));
    ChunksShowCalls(resp);
  }
}

/** What the translated requests and replies say, field by field, against what was said before. */
module AnthropicFields {
  import opened Wrappers
  import opened Json
  import opened Fields
  import opened Sequences
  import opened Anthropic
  import JsonText
  import OpenAiSse
  import Text

  // --------------------------------------------------------------- OpenAI messages

  datatype SaidCall = SaidCall(id: Option<string>, kind: Option<string>, name: Option<string>,
                               arguments: Option<string>)

  /** What an OpenAI message says: who, what, the calls it makes, the call it answers, and the
      reasoning field. */
  datatype Said = Said(role: Option<string>, content: Option<string>, calls: seq<SaidCall>, answers: Option<string>,
                       reasoning: Option<string>)

  ghost function CallSaid(call: Json): SaidCall {
    var c := Some(call);
    SaidCall(TextIn(Field(c, "id")), TextIn(Field(c, "type")), TextIn(Field(Field(c, "function"), "name")),
             TextIn(Field(Field(c, "function"), "arguments")))
  }

  ghost function CallsSaid(calls: seq<Json>): seq<SaidCall> {
    seq(|calls|, i requires 0 <= i < |calls| => CallSaid(calls[i]))
  }

  ghost function SaidIn(msg: Json): Said {
    var m := Some(msg);
    Said(TextIn(Field(m, "role")), TextIn(Field(m, "content")), CallsSaid(ItemsIn(Field(m, "tool_calls")).GetOr([])),
         TextIn(Field(m, "tool_call_id")), TextIn(Field(m, "reasoning_content")))
  }

  ghost function SaidInAll(msgs: seq<Json>): seq<Said> {
    seq(|msgs|, i requires 0 <= i < |msgs| => SaidIn(msgs[i]))
  }

  lemma SaidInAllAppend(a: seq<Json>, b: seq<Json>)
    ensures SaidInAll(a + b) == SaidInAll(a) + SaidInAll(b)
  {
  }

  lemma CallsSaidAppend(a: seq<Json>, b: seq<Json>)
    ensures CallsSaid(a + b) == CallsSaid(a) + CallsSaid(b)
  {
  }

  // -------------------------------------------------------------- Anthropic turns

  ghost function Kind(block: Json): string {
    TextIn(Field(Some(block), "type")).GetOr("text")
  }

  /** The texts of the parts that have one. */
  ghost function PartTexts(parts: seq<Json>): seq<string> {
    if parts == [] then []
    else
      var text := TextIn(Field(Some(parts[0]), "text"));
      (if text.Some? then [text.value] else []) + PartTexts(parts[1..])
  }

  /** The texts of the blocks that are neither a tool use nor a tool result. */
  ghost function Texts(blocks: seq<Json>): seq<string> {
    if blocks == [] then []
    else
      var text := TextIn(Field(Some(blocks[0]), "text"));
      (if Kind(blocks[0]) != "tool_use" && Kind(blocks[0]) != "tool_result" && text.Some? then [text.value] else []) +
      Texts(blocks[1..])
  }

  /** The tool uses, as calls: the input printed. */
  ghost function Uses(blocks: seq<Json>): seq<SaidCall> {
    if blocks == [] then []
    else
      var b := Some(blocks[0]);
      (if Kind(blocks[0]) == "tool_use" then
         [SaidCall(Some(TextIn(Field(b, "id")).GetOr("call_0")), Some("function"),
                   Some(TextIn(Field(b, "name")).GetOr("")),
                   Some(JsonText.Print(Field(b, "input").GetOr(Obj(map[])))))]
       else []) + Uses(blocks[1..])
  }

  /** A text, or the texts of parts on a line each; nothing for anything else. */
  ghost function Lined(content: Option<Json>): string {
    if TextIn(content).Some? then TextIn(content).value
    else if ItemsIn(content).Some? then Text.Join(PartTexts(ItemsIn(content).value), "\n")
    else ""
  }

  /** The tool results, each as a message that answers its call. */
  ghost function Results(blocks: seq<Json>): seq<Said> {
    if blocks == [] then []
    else
      var b := Some(blocks[0]);
      (if Kind(blocks[0]) == "tool_result" then
         [Said(Some("tool"), Some(Lined(Field(b, "content"))), [],
               Some(TextIn(Field(b, "tool_use_id")).GetOr("call_0")), None)]
       else []) + Results(blocks[1..])
  }

  ghost predicate Mentions(text: string, part: string) {
    exists i :: 0 <= i <= |text| && part <= text[i..]
  }

  /** What a turn says, as OpenAI messages should say it. */
  ghost function TurnSays(model: string, turn: Json): seq<Said> {
    var t := Some(turn);
    var role := TextIn(Field(t, "role")).GetOr("user");
    var blocks := ItemsIn(Field(t, "content"));
    if blocks.None? then [Said(Some(role), Some(TextIn(Field(t, "content")).GetOr("")), [], None, None)]
    else
      var text, uses := Text.Join(Texts(blocks.value), "\n"), Uses(blocks.value);
      var reasoning := if role == "assistant" && Mentions(model, "deepseek") then Some("") else None;
      (if text == "" && uses == [] then [] else [Said(Some(role), Some(text), uses, None, reasoning)]) +
      Results(blocks.value)
  }

  ghost function TurnsSay(model: string, turns: seq<Json>): seq<Said> {
    if turns == [] then []
    else TurnsSay(model, turns[..|turns| - 1]) + TurnSays(model, turns[|turns| - 1])
  }

  ghost function SystemSays(body: Json): seq<Said> {
    var text := Lined(Field(Some(body), "system"));
    if text == "" then [] else [Said(Some("system"), Some(text), [], None, None)]
  }

  // ----------------------------------------------------------------------- requests

  lemma {:induction false} PartTextsAre(parts: seq<Json>)
    ensures FlatMap(parts, PartText) == PartTexts(parts)
  {
    if parts != [] {
      FlatMapFront(parts, PartText);
      PartTextsAre(parts[1..]);
    }
  }

  lemma {:induction false} TextsAre(blocks: seq<Json>)
    ensures FlatMap(blocks, TextOf) == Texts(blocks)
  {
    if blocks != [] {
      FlatMapFront(blocks, TextOf);
      TextsAre(blocks[1..]);
    }
  }

  lemma CallIsSaid(b: Json)
    requires BlockType(b) == "tool_use"
    ensures |CallOf(b)| == 1
    ensures CallSaid(CallOf(b)[0]) ==
            SaidCall(Some(ToolUseId(b)), Some("function"), Some(GetStr(b, "name").GetOr("")),
                     Some(JsonText.Print(b.Get("input").GetOr(Obj(map[])))))
  {
    var c := CallOf(b)[0];
    var name, arguments := GetStr(b, "name").GetOr(""), JsonText.Print(b.Get("input").GetOr(Obj(map[])));
    assert Field(Some(c), "function") == Some(Obj(map["name" := Str(name), "arguments" := Str(arguments)]));
  }

  lemma {:induction false} UsesAre(blocks: seq<Json>)
    ensures CallsSaid(FlatMap(blocks, CallOf)) == Uses(blocks)
  {
    if blocks != [] {
      var b := blocks[0];
      FlatMapFront(blocks, CallOf);
      UsesAre(blocks[1..]);
      CallsSaidAppend(CallOf(b), FlatMap(blocks[1..], CallOf));
      if BlockType(b) == "tool_use" {
        CallIsSaid(b);
        assert CallsSaid(CallOf(b)) == [CallSaid(CallOf(b)[0])];
      } else {
        assert CallsSaid(CallOf(b)) == [];
      }
    }
  }

  lemma ResultIsSaid(b: Json)
    requires BlockType(b) == "tool_result"
    ensures |ResultOf(b)| == 1
    ensures SaidIn(ResultOf(b)[0]) ==
            Said(Some("tool"), Some(Lined(Field(Some(b), "content"))), [], Some(ToolResultId(b)), None)
  {
    var m := ResultOf(b)[0];
    match b.Get("content") {
      case Some(Arr(inner)) => PartTextsAre(inner);
      case _ =>
    }
    assert Field(Some(m), "tool_calls") == None && CallsSaid([]) == [];
  }

  lemma {:induction false} ResultsAre(blocks: seq<Json>)
    ensures SaidInAll(FlatMap(blocks, ResultOf)) == Results(blocks)
  {
    if blocks != [] {
      var b := blocks[0];
      FlatMapFront(blocks, ResultOf);
      ResultsAre(blocks[1..]);
      SaidInAllAppend(ResultOf(b), FlatMap(blocks[1..], ResultOf));
      if BlockType(b) == "tool_result" {
        ResultIsSaid(b);
        assert SaidInAll(ResultOf(b)) == [SaidIn(ResultOf(b)[0])];
      } else {
        assert SaidInAll(ResultOf(b)) == [];
      }
    }
  }

  lemma {:induction false} ContainsIsMentions(s: string, t: string)
    ensures Contains(s, t) <==> Mentions(s, t)
  {
    if t <= s {
      assert s[0..] == s;
    } else if s != "" {
      ContainsIsMentions(s[1..], t);
      if Mentions(s[1..], t) {
        var i :| 0 <= i <= |s[1..]| && t <= s[1..][i..];
        assert s[1..][i..] == s[i + 1..];
      }
      if Mentions(s, t) {
        var i :| 0 <= i <= |s| && t <= s[i..];
        assert i != 0 by {
          assert s[0..] == s;
        }
        assert s[1..][i - 1..] == s[i..];
      }
    } else {
      assert forall i :: 0 <= i <= |s| ==> s[i..] == s;
    }
  }

  lemma PlainIsSaid(role: string, content: string)
    ensures SaidIn(PlainMessage(role, content)) == Said(Some(role), Some(content), [], None, None)
    ensures SaidInAll([PlainMessage(role, content)]) == [Said(Some(role), Some(content), [], None, None)]
  {
    assert Field(Some(PlainMessage(role, content)), "tool_calls") == None && CallsSaid([]) == [];
  }

  lemma TurnMessageIsSaid(model: string, role: string, text: string, calls: seq<Json>)
    ensures
      var reasoning := if role == "assistant" && Mentions(model, "deepseek") then Some("") else None;
      SaidIn(TurnMessage(model, role, text, calls)) == Said(Some(role), Some(text), CallsSaid(calls), None, reasoning)
  {
    ContainsIsMentions(model, "deepseek");
    var m := Some(TurnMessage(model, role, text, calls));
    assert Field(m, "role") == Some(Str(role)) && Field(m, "content") == Some(Str(text));
    assert ItemsIn(Field(m, "tool_calls")).GetOr([]) == calls;
    assert Field(m, "tool_call_id") == None;
  }

  lemma TurnIsSaid(model: string, turn: Json)
    ensures SaidInAll(Translate(model, turn)) == TurnSays(model, turn)
  {
    match Content(turn)
    case Arr(blocks) =>
      var text, calls := TurnText(blocks), FlatMap(blocks, CallOf);
      var own := TurnMessage(model, Role(turn), text, calls);
      TextsAre(blocks);
      UsesAre(blocks);
      ResultsAre(blocks);
      TurnMessageIsSaid(model, Role(turn), text, calls);
      SaidInAllAppend([own], FlatMap(blocks, ResultOf));
      assert SaidInAll([own]) == [SaidIn(own)];
      assert |CallsSaid(calls)| == |calls|;
    case Str(s) => PlainIsSaid(Role(turn), s);
    case _ => PlainIsSaid(Role(turn), "");
  }

  lemma {:induction false} TurnsAreSaid(model: string, turns: seq<Json>)
    ensures SaidInAll(TranslateAll(model, turns)) == TurnsSay(model, turns)
  {
    if turns != [] {
      var init, last := turns[..|turns| - 1], turns[|turns| - 1];
      TurnIsSaid(model, last);
      TurnsAreSaid(model, init);
      SaidInAllAppend(TranslateAll(model, init), Translate(model, last));
    }
  }

  lemma SystemIsSaid(body: Json)
    ensures SaidInAll(SystemMessages(body)) == SystemSays(body)
  {
    match body.Get("system") {
      case Some(Arr(parts)) => PartTextsAre(parts);
      case _ =>
    }
    PlainIsSaid("system", SystemText(body));
  }

  /** What the messages of the translated request say. */
  ghost function Sent(body: Json): seq<Said> {
    SaidInAll(ItemsIn(Field(Some(OpenAiRequest(body)), "messages")).GetOr([]))
  }

  /** Every conversation is said again, message by message: the system text first; each text turn
      with its own role and text; each block turn with its texts on a line each, its tool uses with
      id, name and printed input, and then one message per tool result with its text and call. */
  lemma ConversationKept(body: Json)
    ensures ItemsIn(Field(Some(OpenAiRequest(body)), "messages")).Some?
    ensures
      var b := Some(body);
      var turns := ItemsIn(Field(b, "messages")).GetOr([]);
      Sent(body) == SystemSays(body) + TurnsSay(TextIn(Field(b, "model")).GetOr("default"), turns)
  {
    RequestHolds(body, Messages(body));
    SystemIsSaid(body);
    TurnsAreSaid(RequestModel(body), Turns(body));
    SaidInAllAppend(SystemMessages(body), TranslateAll(RequestModel(body), Turns(body)));
  }

  // ---------------------------------------------------------------- around the messages

  datatype SaidTool = SaidTool(kind: Option<string>, name: Option<string>, description: Option<string>,
                               parameters: Option<Json>)

  ghost function ToolSaid(tool: Json): SaidTool {
    var f := Field(Some(tool), "function");
    SaidTool(TextIn(Field(Some(tool), "type")), TextIn(Field(f, "name")), TextIn(Field(f, "description")),
             Field(f, "parameters"))
  }

  ghost function ToolsSaid(tools: seq<Json>): seq<SaidTool> {
    seq(|tools|, i requires 0 <= i < |tools| => ToolSaid(tools[i]))
  }

  /** The tools with a name, as OpenAI tools. */
  ghost function Offered(tools: seq<Json>): seq<SaidTool> {
    if tools == [] then []
    else
      var t := Some(tools[0]);
      var name := TextIn(Field(t, "name")).GetOr("");
      (if name == "" then []
       else
         [SaidTool(Some("function"), Some(name), Some(TextIn(Field(t, "description")).GetOr("")),
                   Some(Field(t, "input_schema").GetOr(Obj(map[]))))]) + Offered(tools[1..])
  }

  lemma ToolIsSaid(tool: Json)
    requires GetStr(tool, "name").GetOr("") != ""
    ensures |FunctionTool(tool)| == 1
    ensures ToolSaid(FunctionTool(tool)[0]) ==
            SaidTool(Some("function"), Some(GetStr(tool, "name").value), Some(GetStr(tool, "description").GetOr("")),
                     Some(tool.Get("input_schema").GetOr(Obj(map[]))))
  {
    var out := FunctionTool(tool)[0];
    assert Field(Some(out), "function") ==
           Some(Obj(map["name" := Str(GetStr(tool, "name").value),
                        "description" := Str(GetStr(tool, "description").GetOr("")),
                        "parameters" := tool.Get("input_schema").GetOr(Obj(map[]))]));
  }

  lemma {:induction false} ToolsAreOffered(tools: seq<Json>)
    ensures ToolsSaid(FlatMap(tools, FunctionTool)) == Offered(tools)
  {
    if tools != [] {
      var first, rest := FunctionTool(tools[0]), FlatMap(tools[1..], FunctionTool);
      FlatMapFront(tools, FunctionTool);
      ToolsAreOffered(tools[1..]);
      assert ToolsSaid(first + rest) == ToolsSaid(first) + ToolsSaid(rest);
      if GetStr(tools[0], "name").GetOr("") != "" {
        ToolIsSaid(tools[0]);
        assert ToolsSaid(first) == [ToolSaid(first[0])];
      } else {
        assert ToolsSaid(first) == [];
      }
    }
  }

  lemma RequestHolds(body: Json, messages: seq<Json>)
    ensures
      var out, tools := Some(Request(body, messages)), FlatMap(GetArr(body, "tools").GetOr([]), FunctionTool);
      Field(out, "messages") == Some(Arr(messages)) && Field(out, "model") == Some(Str(RequestModel(body))) &&
      Field(out, "max_tokens") == Some(Num(GetU64(body, "max_tokens").GetOr(4096))) &&
      Field(out, "tools") == if tools == [] then None else Some(Arr(tools))
  {
  }

  /** The rest of a request: the model, the token limit (4096 if there is none), and the tools that
      have a name; no list of tools if there are none. */
  lemma RequestKept(body: Json)
    ensures
      var b, out := Some(body), Some(OpenAiRequest(body));
      TextIn(Field(out, "model")) == Some(TextIn(Field(b, "model")).GetOr("default")) &&
      NumberIn(Field(out, "max_tokens")) == Some(NumberIn(Field(b, "max_tokens")).GetOr(4096))
    ensures
      var offered := Offered(ItemsIn(Field(Some(body), "tools")).GetOr([]));
      var tools := Field(Some(OpenAiRequest(body)), "tools");
      if offered == [] then tools.None? else ItemsIn(tools).Some? && ToolsSaid(ItemsIn(tools).value) == offered
  {
    RequestHolds(body, Messages(body));
    ToolsAreOffered(GetArr(body, "tools").GetOr([]));
    assert |ToolsSaid(FlatMap(GetArr(body, "tools").GetOr([]), FunctionTool))| ==
           |FlatMap(GetArr(body, "tools").GetOr([]), FunctionTool)|;
  }

  // ------------------------------------------------------------------------ replies

  /** What an Anthropic content block says. */
  datatype SaidBlock =
    | SaysText(text: Option<string>)
    | SaysUse(id: Option<string>, name: Option<string>, input: Option<Json>)
    | SaysOther

  ghost function BlockSaid(block: Json): SaidBlock {
    var b := Some(block);
    var kind := TextIn(Field(b, "type"));
    if kind == Some("text") then SaysText(TextIn(Field(b, "text")))
    else if kind == Some("tool_use") then SaysUse(TextIn(Field(b, "id")), TextIn(Field(b, "name")), Field(b, "input"))
    else SaysOther
  }

  ghost function BlocksSaid(blocks: seq<Json>): seq<SaidBlock> {
    seq(|blocks|, i requires 0 <= i < |blocks| => BlockSaid(blocks[i]))
  }

  /** The arguments of a call as a value: the text of them if it can be read as JSON, else what is
      there, else an empty object. */
  ghost function Arguments(call: Json): Json {
    var raw := Field(Field(Some(call), "function"), "arguments");
    if raw.None? then Obj(map[])
    else if TextIn(raw).Some? && JsonText.Parse(TextIn(raw).value).Some? then JsonText.Parse(TextIn(raw).value).value
    else raw.value
  }

  ghost function UsesSaid(calls: seq<Json>): seq<SaidBlock> {
    if calls == [] then []
    else
      var c := Some(calls[0]);
      [SaysUse(Some(TextIn(Field(c, "id")).GetOr("call_0")),
               Some(TextIn(Field(Field(c, "function"), "name")).GetOr("")), Some(Arguments(calls[0])))] +
                 UsesSaid(calls[1..])
  }

  lemma UseIsSaid(call: Json)
    ensures BlockSaid(ToolUseBlock(call)) ==
            SaysUse(Some(OpenAiSse.CallId(call)), Some(OpenAiSse.CallName(call)), Some(Arguments(call)))
  {
    assert CallInput(call) == Arguments(call);
  }

  lemma BlocksSaidAppend(a: seq<Json>, b: seq<Json>)
    ensures BlocksSaid(a + b) == BlocksSaid(a) + BlocksSaid(b)
  {
  }

  lemma {:induction false} UsesAreSaid(calls: seq<Json>)
    ensures BlocksSaid(ToolUseBlocks(calls)) == UsesSaid(calls)
  {
    if calls != [] {
      FlatMapFront(calls, UseBlockOf);
      UsesAreSaid(calls[1..]);
      UseIsSaid(calls[0]);
      BlocksSaidAppend([ToolUseBlock(calls[0])], ToolUseBlocks(calls[1..]));
      assert BlocksSaid([ToolUseBlock(calls[0])]) == [BlockSaid(ToolUseBlock(calls[0]))];
    }
  }

  lemma TextIsSaid(text: string)
    ensures BlocksSaid([TextBlock(text)]) == [SaysText(Some(text))]
  {
  }

  lemma ReplyBlocksSaid(resp: Json)
    ensures
      var text, uses := OpenAiSse.ReplyText(resp), UsesSaid(OpenAiSse.ReplyCalls(resp));
      BlocksSaid(Blocks(resp)) ==
      (if text != "" || uses == [] then [SaysText(Some(text))] else []) + uses
  {
    var text, calls := OpenAiSse.ReplyText(resp), OpenAiSse.ReplyCalls(resp);
    UsesAreSaid(calls);
    TextIsSaid(text);
    assert |ToolUseBlocks(calls)| == |UsesSaid(calls)|;
    assert calls != [] ==> UsesSaid(calls) != [];
    assert BlocksSaid([TextBlock(text)] + ToolUseBlocks(calls)) ==
           BlocksSaid([TextBlock(text)]) + BlocksSaid(ToolUseBlocks(calls));
    if calls == [] {
      assert [TextBlock(text)] + ToolUseBlocks(calls) == [TextBlock(text)];
    }
  }

  /** A translated reply says what the reply said: its text in a first block, if there is one, then
      each call as a tool use in order; an empty text block if there is nothing. */
  lemma ReplyKept(resp: Json)
    ensures
      var message, out := OpenAiSse.ReplyMessage(resp), Some(AnthropicReply(resp));
      var text := TextIn(Field(message, "content")).GetOr("");
      var uses := UsesSaid(ItemsIn(Field(message, "tool_calls")).GetOr([]));
      ItemsIn(Field(out, "content")).Some? &&
      BlocksSaid(ItemsIn(Field(out, "content")).value) ==
        (if text != "" || uses == [] then [SaysText(Some(text))] else []) + uses
  {
    ReplyHolds(resp);
    OpenAiSse.ReplyFields(resp);
    ReplyBlocksSaid(resp);
  }

  lemma ReplyHolds(resp: Json)
    ensures
      var out, (pt, ct) := Some(AnthropicReply(resp)), ExtractUsage(resp);
      Field(out, "content") == Some(Arr(Blocks(resp))) &&
      Field(out, "model") == Some(Str(OpenAiSse.ReplyModel(resp))) &&
      Field(out, "role") == Some(Str("assistant")) && Field(out, "type") == Some(Str("message")) &&
      Field(out, "stop_reason") == Some(Str(StopReason(resp))) && Field(out, "stop_sequence") == Some(Null) &&
      Field(Field(out, "usage"), "input_tokens") == Some(Num(pt)) &&
      Field(Field(out, "usage"), "output_tokens") == Some(Num(ct))
  {
    var (pt, ct) := ExtractUsage(resp);
    assert Field(Some(AnthropicReply(resp)), "usage") ==
           Some(Obj(map["input_tokens" := Num(pt), "output_tokens" := Num(ct)]));
  }

  /** The rest of a reply: the model, both token counts, and why it stopped. */
  lemma ReplyEndKept(resp: Json)
    ensures
      var r, out := Some(resp), Some(AnthropicReply(resp));
      var finish := TextIn(Field(Item(Field(r, "choices"), 0), "finish_reason"));
      TextIn(Field(out, "model")) == Some(TextIn(Field(r, "model")).GetOr("default")) &&
      NumberIn(Field(Field(out, "usage"), "input_tokens")) ==
        Some(NumberIn(Field(Field(r, "usage"), "prompt_tokens")).GetOr(0)) &&
      NumberIn(Field(Field(out, "usage"), "output_tokens")) ==
        Some(NumberIn(Field(Field(r, "usage"), "completion_tokens")).GetOr(0)) &&
      TextIn(Field(out, "stop_reason")) == Some(
        if OpenAiSse.ReplyMessage(resp).Some? && finish == Some("tool_calls") then "tool_use"
        else if OpenAiSse.ReplyMessage(resp).Some? && finish == Some("length") then "max_tokens"
        else "end_turn")
  {
    ReplyHolds(resp);
    OpenAiSse.ReplyFields(resp);
  }

  // --------------------------------------------------------------------------- echo

  /** The calls of a reply as an echo should make them: the arguments read and printed again. */
  ghost function Again(calls: seq<Json>): seq<SaidCall> {
    if calls == [] then []
    else
      var c := Some(calls[0]);
      [SaidCall(Some(TextIn(Field(c, "id")).GetOr("call_0")), Some("function"),
                Some(TextIn(Field(Field(c, "function"), "name")).GetOr("")),
                Some(JsonText.Print(Arguments(calls[0]))))] + Again(calls[1..])
  }

  lemma {:induction false} UsesAgain(calls: seq<Json>)
    ensures Uses(ToolUseBlocks(calls)) == Again(calls)
    ensures Texts(ToolUseBlocks(calls)) == [] && Results(ToolUseBlocks(calls)) == []
  {
    if calls != [] {
      var b, rest := ToolUseBlock(calls[0]), ToolUseBlocks(calls[1..]);
      FlatMapFront(calls, UseBlockOf);
      UsesAgain(calls[1..]);
      UseIsSaid(calls[0]);
      assert ([b] + rest)[0] == b && ([b] + rest)[1..] == rest && Kind(b) == "tool_use";
    }
  }

  lemma TextThenUses(text: string, uses: seq<Json>)
    ensures
      var blocks := [TextBlock(text)] + uses;
      Texts(blocks) == [text] + Texts(uses) && Uses(blocks) == Uses(uses) && Results(blocks) == Results(uses)
  {
    var b := TextBlock(text);
    assert ([b] + uses)[0] == b && ([b] + uses)[1..] == uses && Kind(b) == "text";
  }

  lemma BlocksAgain(resp: Json)
    ensures
      var text, calls := OpenAiSse.ReplyText(resp), OpenAiSse.ReplyCalls(resp);
      Text.Join(Texts(Blocks(resp)), "\n") == text && Uses(Blocks(resp)) == Again(calls) && Results(Blocks(resp)) == []
  {
    var text, calls := OpenAiSse.ReplyText(resp), OpenAiSse.ReplyCalls(resp);
    var rest := ToolUseBlocks(calls);
    UsesAgain(calls);
    TextThenUses(text, rest);
    assert [text] + Texts(rest) == [text];
    if text == "" && calls != [] {
      assert Blocks(resp) == rest;
    } else {
      assert Blocks(resp) == [TextBlock(text)] + rest;
    }
  }

  lemma EchoSays(model: string, resp: Json, turn: Json)
    requires TextIn(Field(Some(turn), "role")) == Some("assistant")
    requires Field(Some(turn), "content") == Field(Some(AnthropicReply(resp)), "content")
    ensures TurnSays(model, turn) == Heard(model, resp)
  {
    ReplyHolds(resp);
    OpenAiSse.ReplyFields(resp);
    BlocksAgain(resp);
  }

  /** What upstream should hear of a reply that is sent back: its text and its calls, from the
      assistant, in one message; of an empty reply nothing. */
  ghost function Heard(model: string, resp: Json): seq<Said> {
    var message := OpenAiSse.ReplyMessage(resp);
    var text := TextIn(Field(message, "content")).GetOr("");
    var calls := Again(ItemsIn(Field(message, "tool_calls")).GetOr([]));
    var reasoning := if Mentions(model, "deepseek") then Some("") else None;
    if text == "" && calls == [] then [] else [Said(Some("assistant"), Some(text), calls, None, reasoning)]
  }

  /** A conversation that ends with a translated reply sent back as the assistant's turn: the
      request ends with what was to be heard of it. */
  lemma EchoKept(body: Json, before: seq<Json>, resp: Json, turn: Json)
    requires ItemsIn(Field(Some(body), "messages")) == Some(before + [turn])
    requires TextIn(Field(Some(turn), "role")) == Some("assistant")
    requires Field(Some(turn), "content") == Field(Some(AnthropicReply(resp)), "content")
    ensures
      var model := TextIn(Field(Some(body), "model")).GetOr("default");
      Sent(body) == SystemSays(body) + TurnsSay(model, before) + Heard(model, resp)
  {
    var model := TextIn(Field(Some(body), "model")).GetOr("default");
    ConversationKept(body);
    EchoSays(model, resp, turn);
    TurnsSayLast(model, before, turn);
    Grouped(SystemSays(body), TurnsSay(model, before), TurnSays(model, turn));
  }

  lemma TurnsSayLast(model: string, before: seq<Json>, turn: Json)
    ensures TurnsSay(model, before + [turn]) == TurnsSay(model, before) + TurnSays(model, turn)
  {
    assert (before + [turn])[..|before|] == before;
  }

  lemma Grouped(a: seq<Said>, b: seq<Said>, c: seq<Said>)
    ensures a + (b + c) == a + b + c
  {
  }
}

/** Translation between the two chat protocols: an Anthropic request to an OpenAI request, and an
    OpenAI reply to an Anthropic reply. */
module Anthropic {
  import opened Wrappers
  import opened Json
  import opened Sequences
  import Text
  import JsonText
  import OpenAiSse

  // ------------------------------------------------------------ reply to Anthropic

  function RawArguments(call: Json): Option<Json> {
    match call.Get("function")
    case None => None
    case Some(f) => f.Get("arguments")
  }

  /** The arguments of a call as a value: the JSON text read if it can be, otherwise as they are. */
  function CallInput(call: Json): Json {
    match RawArguments(call)
    case None => Obj(map[])
    case Some(raw) => if raw.Str? then JsonText.Parse(raw.s).GetOr(raw) else raw
  }

  function TextBlock(text: string): Json {
    Obj(map["type" := Str("text"), "text" := Str(text)])
  }

  function ToolUseBlock(call: Json): Json {
    Obj(map["type" := Str("tool_use"), "id" := Str(OpenAiSse.CallId(call)),
            "name" := Str(OpenAiSse.CallName(call)), "input" := CallInput(call)])
  }

  function UseBlockOf(call: Json): seq<Json> { [ToolUseBlock(call)] }

  function ToolUseBlocks(calls: seq<Json>): seq<Json> {
    FlatMap(calls, UseBlockOf)
  }

  /** Text if any, then the tool calls; a single empty text block if there is neither. */
  function Blocks(resp: Json): seq<Json> {
    var text, calls := OpenAiSse.ReplyText(resp), OpenAiSse.ReplyCalls(resp);
    if text == "" && calls == [] then [TextBlock("")]
    else (if text == "" then [] else [TextBlock(text)]) + ToolUseBlocks(calls)
  }

  function StopReason(resp: Json): string {
    match OpenAiSse.FirstChoice(resp)
    case None => "end_turn"
    case Some(c) =>
      if c.finishReason == Some("tool_calls") then "tool_use"
      else if c.finishReason == Some("length") then "max_tokens"
      else "end_turn"
  }

  function Reply(model: string, blocks: seq<Json>, stopReason: string, inputTokens: U64, outputTokens: U64): Json {
    Obj(map["id" := Str("msg_mock_0001"), "type" := Str("message"), "role" := Str("assistant"), "model" := Str(model),
            "content" := Arr(blocks), "stop_reason" := Str(stopReason), "stop_sequence" := Null,
            "usage" := Obj(map["input_tokens" := Num(inputTokens), "output_tokens" := Num(outputTokens)])])
  }

  function AnthropicReply(resp: Json): Json {
    var (pt, ct) := ExtractUsage(resp);
    Reply(OpenAiSse.ReplyModel(resp), Blocks(resp), StopReason(resp), pt, ct)
  }

  method BuildBlocks(resp: Json) returns (blocks: seq<Json>, stopReason: string)
    ensures blocks == Blocks(resp) && stopReason == StopReason(resp)
  {
    blocks, stopReason := [], "end_turn";
    var choice := OpenAiSse.FirstChoice(resp);
    if choice.Some? {
      var c := choice.value;
      if c.text != "" {
        blocks := blocks + [TextBlock(c.text)];
      }
      ghost var head := blocks;
      for i := 0 to |c.toolCalls|
        invariant blocks == head + ToolUseBlocks(c.toolCalls[..i])
      {
        FlatMapStep(c.toolCalls, i, UseBlockOf);
        blocks := blocks + [ToolUseBlock(c.toolCalls[i])];
      }
      assert c.toolCalls[..|c.toolCalls|] == c.toolCalls;
      if c.finishReason == Some("tool_calls") {
        stopReason := "tool_use";
      } else if c.finishReason == Some("length") {
        stopReason := "max_tokens";
      }
    }
    if blocks == [] {
      blocks := blocks + [TextBlock("")];
    }
  }

  method ToAnthropic(resp: Json) returns (out: Json)
    ensures out == AnthropicReply(resp)
  {
    var blocks, stopReason := BuildBlocks(resp);
    var (pt, ct) := ExtractUsage(resp);
    out := Reply(OpenAiSse.ReplyModel(resp), blocks, stopReason, pt, ct);
  }

  // ----------------------------------------------------------- request to OpenAI

  function BlockType(b: Json): string {
    GetStr(b, "type").GetOr("text")
  }

  function ToolUseId(b: Json): string { GetStr(b, "id").GetOr("call_0") }
  function ToolResultId(b: Json): string { GetStr(b, "tool_use_id").GetOr("call_0") }

  /** What a block adds to the text, the tool calls and the tool results of its turn. */
  function TextOf(b: Json): seq<string> {
    if BlockType(b) in {"tool_use", "tool_result"} then []
    else match GetStr(b, "text")
      case None => []
      case Some(t) => [t]
  }

  function ToolCall(id: string, name: string, arguments: string): Json {
    Obj(map["id" := Str(id), "type" := Str("function"),
            "function" := Obj(map["name" := Str(name), "arguments" := Str(arguments)])])
  }

  function CallOf(b: Json): seq<Json> {
    if BlockType(b) == "tool_use" then
      [ToolCall(ToolUseId(b), GetStr(b, "name").GetOr(""), JsonText.Print(b.Get("input").GetOr(Obj(map[]))))]
    else []
  }

  function PartText(b: Json): seq<string> {
    match GetStr(b, "text")
    case None => []
    case Some(t) => [t]
  }

  function ResultText(b: Json): string {
    match b.Get("content")
    case Some(Str(s)) => s
    case Some(Arr(inner)) => Text.Join(FlatMap(inner, PartText), "\n")
    case _ => ""
  }

  function ToolMessage(id: string, content: string): Json {
    Obj(map["role" := Str("tool"), "content" := Str(content), "tool_call_id" := Str(id)])
  }

  function ResultOf(b: Json): seq<Json> {
    if BlockType(b) == "tool_result" then [ToolMessage(ToolResultId(b), ResultText(b))] else []
  }

  predicate Contains(s: string, t: string) {
    t <= s || (s != "" && Contains(s[1..], t))
  }

  function PlainMessage(role: string, content: string): Json {
    Obj(map["role" := Str(role), "content" := Str(content)])
  }

  /** A turn's own message; thinking models want the reasoning field present on assistant turns. */
  function TurnMessage(model: string, role: string, text: string, calls: seq<Json>): Json {
    var m := PlainMessage(role, text).fields;
    var m := if calls == [] then m else m["tool_calls" := Arr(calls)];
    Obj(if role == "assistant" && Contains(model, "deepseek") then m["reasoning_content" := Str("")] else m)
  }

  function Role(m: Json): string { GetStr(m, "role").GetOr("user") }
  function Content(m: Json): Json { m.Get("content").GetOr(Str("")) }

  /** The block texts of a turn on separate lines. */
  function TurnText(blocks: seq<Json>): string {
    Text.Join(FlatMap(blocks, TextOf), "\n")
  }

  /** One Anthropic turn as OpenAI messages: its own message unless it has neither text nor
      tool calls, then one message per tool result. */
  function Translate(model: string, m: Json): seq<Json> {
    match Content(m)
    case Str(s) => [PlainMessage(Role(m), s)]
    case Arr(blocks) =>
      var text, calls := TurnText(blocks), FlatMap(blocks, CallOf);
      (if text == "" && calls == [] then [] else [TurnMessage(model, Role(m), text, calls)]) + FlatMap(blocks, ResultOf)
    case _ => [PlainMessage(Role(m), "")]
  }

  function SystemText(body: Json): string {
    match body.Get("system")
    case Some(Str(s)) => s
    case Some(Arr(parts)) => Text.Join(FlatMap(parts, PartText), "\n")
    case _ => ""
  }

  function FunctionTool(tool: Json): seq<Json> {
    var name := GetStr(tool, "name").GetOr("");
    if name == "" then []
    else
      [Obj(map["type" := Str("function"),
               "function" := Obj(map["name" := Str(name), "description" := Str(GetStr(tool, "description").GetOr("")),
                                     "parameters" := tool.Get("input_schema").GetOr(Obj(map[]))])])]
  }

  function RequestModel(body: Json): string { GetStr(body, "model").GetOr("default") }

  function Turns(body: Json): seq<Json> { GetArr(body, "messages").GetOr([]) }

  function TranslateAll(model: string, turns: seq<Json>): seq<Json> {
    if turns == [] then []
    else TranslateAll(model, turns[..|turns| - 1]) + Translate(model, turns[|turns| - 1])
  }

  function SystemMessages(body: Json): seq<Json> {
    if SystemText(body) == "" then [] else [PlainMessage("system", SystemText(body))]
  }

  function Messages(body: Json): seq<Json> {
    SystemMessages(body) + TranslateAll(RequestModel(body), Turns(body))
  }

  /** The request around its messages. */
  function Request(body: Json, messages: seq<Json>): Json {
    var out := map["model" := Str(RequestModel(body)), "max_tokens" := Num(GetU64(body, "max_tokens").GetOr(4096)),
                   "messages" := Arr(messages)];
    var tools := FlatMap(GetArr(body, "tools").GetOr([]), FunctionTool);
    Obj(if tools == [] then out else out["tools" := Arr(tools)])
  }

  function OpenAiRequest(body: Json): Json {
    Request(body, Messages(body))
  }

  /** One turn: the blocks are sorted into text, calls and results in a single pass. */
  method TranslateTurn(model: string, m: Json) returns (out: seq<Json>)
    ensures out == Translate(model, m)
  {
    match Content(m) {
      case Str(s) =>
        out := [PlainMessage(Role(m), s)];
      case Arr(blocks) =>
        var texts: seq<string>, calls: seq<Json>, results: seq<Json> := [], [], [];
        for i := 0 to |blocks|
          invariant texts == FlatMap(blocks[..i], TextOf)
          invariant calls == FlatMap(blocks[..i], CallOf)
          invariant results == FlatMap(blocks[..i], ResultOf)
        {
          FlatMapStep(blocks, i, TextOf);
          FlatMapStep(blocks, i, CallOf);
          FlatMapStep(blocks, i, ResultOf);
          texts, calls, results := texts + TextOf(blocks[i]), calls + CallOf(blocks[i]), results + ResultOf(blocks[i]);
        }
        assert blocks[..|blocks|] == blocks;
        var text := Text.Join(texts, "\n");
        out := [];
        if text != "" || calls != [] {
          out := [TurnMessage(model, Role(m), text, calls)];
        }
        out := out + results;
      case _ =>
        out := [PlainMessage(Role(m), "")];
    }
  }

  lemma TranslateAllStep(model: string, turns: seq<Json>, i: nat)
    requires i < |turns|
    ensures TranslateAll(model, turns[..i + 1]) == TranslateAll(model, turns[..i]) + Translate(model, turns[i])
  {
    assert turns[..i + 1][..i] == turns[..i];
  }

  method TranslateTurns(model: string, turns: seq<Json>) returns (messages: seq<Json>)
    ensures messages == TranslateAll(model, turns)
  {
    messages := [];
    for i := 0 to |turns|
      invariant messages == TranslateAll(model, turns[..i])
    {
      TranslateAllStep(model, turns, i);
      var more := TranslateTurn(model, turns[i]);
      messages := messages + more;
    }
    assert turns[..|turns|] == turns;
  }

  method ToOpenAi(body: Json) returns (out: Json)
    ensures out == OpenAiRequest(body)
  {
    var messages := TranslateTurns(RequestModel(body), Turns(body));
    out := Request(body, SystemMessages(body) + messages);
  }

  // ------------------------------------------------------------------- tool traffic

  function CallIdOf(call: Json): seq<string> { [OpenAiSse.CallId(call)] }

  /** The ids of the calls a message makes, and of the call a message answers. */
  function CallIds(msg: Json): seq<string> {
    match GetArr(msg, "tool_calls")
    case None => []
    case Some(calls) => FlatMap(calls, CallIdOf)
  }

  function AnswerIds(msg: Json): seq<string> {
    match GetStr(msg, "tool_call_id")
    case None => []
    case Some(id) => [id]
  }

  function UseIdOf(b: Json): seq<string> { if BlockType(b) == "tool_use" then [ToolUseId(b)] else [] }
  function ResultIdOf(b: Json): seq<string> { if BlockType(b) == "tool_result" then [ToolResultId(b)] else [] }

  function TurnBlocks(m: Json): seq<Json> { Content(m).AsArr().GetOr([]) }

  /** The ids of the tool uses and tool results of a turn. */
  function UseIds(m: Json): seq<string> { FlatMap(TurnBlocks(m), UseIdOf) }
  function ResultIds(m: Json): seq<string> { FlatMap(TurnBlocks(m), ResultIdOf) }

  lemma TurnMessageIds(model: string, role: string, text: string, calls: seq<Json>)
    ensures CallIds(TurnMessage(model, role, text, calls)) == FlatMap(calls, CallIdOf)
    ensures AnswerIds(TurnMessage(model, role, text, calls)) == []
    ensures TurnMessage(model, role, text, calls).Get("tool_call_id") == None
  {
  }

  lemma ToolMessageIds(id: string, content: string)
    ensures CallIds(ToolMessage(id, content)) == [] && AnswerIds(ToolMessage(id, content)) == [id]
    ensures ToolMessage(id, content).Get("tool_call_id").Some?
  {
  }

  lemma CallOfIds(b: Json)
    ensures FlatMap(CallOf(b), CallIdOf) == UseIdOf(b)
    ensures FlatMap(ResultOf(b), CallIds) == [] && FlatMap(ResultOf(b), AnswerIds) == ResultIdOf(b)
  {
    if BlockType(b) == "tool_use" {
      FlatMapOne(CallOf(b)[0], CallIdOf);
      assert OpenAiSse.CallId(CallOf(b)[0]) == ToolUseId(b);
    }
    if BlockType(b) == "tool_result" {
      ToolMessageIds(ToolResultId(b), ResultText(b));
      FlatMapOne(ResultOf(b)[0], CallIds);
      FlatMapOne(ResultOf(b)[0], AnswerIds);
    }
  }

  lemma ResultMessages(blocks: seq<Json>)
    ensures FlatMap(FlatMap(blocks, CallOf), CallIdOf) == FlatMap(blocks, UseIdOf)
    ensures FlatMap(FlatMap(blocks, ResultOf), CallIds) == []
    ensures FlatMap(FlatMap(blocks, ResultOf), AnswerIds) == FlatMap(blocks, ResultIdOf)
  {
    forall b
      ensures FlatMap(CallOf(b), CallIdOf) == UseIdOf(b)
      ensures FlatMap(ResultOf(b), CallIds) == NoIds(b) && FlatMap(ResultOf(b), AnswerIds) == ResultIdOf(b)
    {
      CallOfIds(b);
    }
    FlatMapNested(blocks, CallOf, CallIdOf, UseIdOf);
    FlatMapNested(blocks, ResultOf, AnswerIds, ResultIdOf);
    FlatMapNested(blocks, ResultOf, CallIds, NoIds);
    FlatMapNone(blocks, NoIds);
  }

  function NoIds(b: Json): seq<string> { [] }

  /** What a turn's translation says about tools. */
  lemma TurnKeepsTools(model: string, m: Json)
    ensures FlatMap(Translate(model, m), CallIds) == UseIds(m)
    ensures FlatMap(Translate(model, m), AnswerIds) == ResultIds(m)
  {
    match Content(m)
    case Arr(blocks) =>
      var text, calls := TurnText(blocks), FlatMap(blocks, CallOf);
      var own := TurnMessage(model, Role(m), text, calls);
      ResultMessages(blocks);
      TurnMessageIds(model, Role(m), text, calls);
      FlatMapAppend([own], FlatMap(blocks, ResultOf), CallIds);
      FlatMapAppend([own], FlatMap(blocks, ResultOf), AnswerIds);
      FlatMapOne(own, CallIds);
      FlatMapOne(own, AnswerIds);
      if text == "" && calls == [] {
        assert Translate(model, m) == FlatMap(blocks, ResultOf);
        assert FlatMap(calls, CallIdOf) == [];
      }
    case Str(s) => PlainHasNoTools(Role(m), s);
    case _ => PlainHasNoTools(Role(m), "");
  }

  lemma PlainHasNoTools(role: string, content: string)
    ensures FlatMap([PlainMessage(role, content)], CallIds) == [] == FlatMap([PlainMessage(role, content)], AnswerIds)
  {
    FlatMapOne(PlainMessage(role, content), CallIds);
    FlatMapOne(PlainMessage(role, content), AnswerIds);
  }

  lemma {:induction false} AllKeepTools(model: string, turns: seq<Json>)
    ensures FlatMap(TranslateAll(model, turns), CallIds) == FlatMap(turns, UseIds)
    ensures FlatMap(TranslateAll(model, turns), AnswerIds) == FlatMap(turns, ResultIds)
  {
    if turns != [] {
      var init, last := turns[..|turns| - 1], turns[|turns| - 1];
      AllKeepTools(model, init);
      TurnKeepsTools(model, last);
      FlatMapAppend(TranslateAll(model, init), Translate(model, last), CallIds);
      FlatMapAppend(TranslateAll(model, init), Translate(model, last), AnswerIds);
    }
  }

  /** Every conversation keeps its tool traffic: the ids of all tool uses become the ids of all
      tool calls, and the ids of all tool results those of all tool messages, in order. */
  lemma ToolTrafficKept(body: Json)
    ensures FlatMap(Messages(body), CallIds) == FlatMap(Turns(body), UseIds)
    ensures FlatMap(Messages(body), AnswerIds) == FlatMap(Turns(body), ResultIds)
  {
    var system := SystemMessages(body);
    AllKeepTools(RequestModel(body), Turns(body));
    FlatMapAppend(system, TranslateAll(RequestModel(body), Turns(body)), CallIds);
    FlatMapAppend(system, TranslateAll(RequestModel(body), Turns(body)), AnswerIds);
    if system != [] {
      PlainHasNoTools("system", SystemText(body));
    }
  }

  // --------------------------------------------------- tool messages follow their calls

  predicate IsToolMessage(msg: Json) {
    msg.Get("tool_call_id").Some?
  }

  /** The ids called by the last message that is not a tool message. */
  function OpenCalls(msgs: seq<Json>): seq<string> {
    if msgs == [] then []
    else if IsToolMessage(msgs[|msgs| - 1]) then OpenCalls(msgs[..|msgs| - 1])
    else CallIds(msgs[|msgs| - 1])
  }

  ghost predicate AllIn(ids: seq<string>, allowed: seq<string>) {
    forall id :: id in ids ==> id in allowed
  }

  /** Every run of tool messages directly follows the message that made the calls they answer. */
  ghost predicate Answered(msgs: seq<Json>) {
    forall j :: 0 <= j < |msgs| && IsToolMessage(msgs[j]) ==> AllIn(AnswerIds(msgs[j]), OpenCalls(msgs[..j]))
  }

  lemma AnsweredStep(msgs: seq<Json>, m: Json)
    ensures Answered(msgs + [m]) <==> Answered(msgs) && (IsToolMessage(m) ==> AllIn(AnswerIds(m), OpenCalls(msgs)))
    ensures OpenCalls(msgs + [m]) == if IsToolMessage(m) then OpenCalls(msgs) else CallIds(m)
  {
    var all := msgs + [m];
    assert all[..|msgs|] == msgs;
    forall j | 0 <= j < |msgs|
      ensures all[..j] == msgs[..j] && all[j] == msgs[j]
    {
    }
    if Answered(all) {
      forall j | 0 <= j < |msgs| && IsToolMessage(msgs[j])
        ensures AllIn(AnswerIds(msgs[j]), OpenCalls(msgs[..j]))
      {
        assert IsToolMessage(all[j]);
      }
      assert all[|msgs|] == m;
    }
  }

  lemma {:induction false} AnsweredTools(msgs: seq<Json>, tools: seq<Json>)
    requires forall t :: t in tools ==> IsToolMessage(t)
    ensures Answered(msgs + tools) <==> Answered(msgs) && AllIn(FlatMap(tools, AnswerIds), OpenCalls(msgs))
    ensures OpenCalls(msgs + tools) == OpenCalls(msgs)
  {
    if tools == [] {
      assert msgs + tools == msgs;
    } else {
      var init, last := tools[..|tools| - 1], tools[|tools| - 1];
      assert msgs + tools == msgs + init + [last];
      AnsweredTools(msgs, init);
      AnsweredStep(msgs + init, last);
    }
  }

  /** A turn that only carries tool results. */
  predicate Silent(m: Json) {
    Content(m).Arr? && TurnText(Content(m).items) == "" && UseIds(m) == []
  }

  lemma {:induction false} SameCount(blocks: seq<Json>)
    ensures |FlatMap(blocks, CallOf)| == |FlatMap(blocks, UseIdOf)|
    ensures |FlatMap(blocks, ResultOf)| == |FlatMap(blocks, ResultIdOf)|
    ensures forall t :: t in FlatMap(blocks, ResultOf) ==> IsToolMessage(t)
  {
    if blocks != [] {
      var b := blocks[|blocks| - 1];
      SameCount(blocks[..|blocks| - 1]);
      if BlockType(b) == "tool_result" {
        ToolMessageIds(ToolResultId(b), ResultText(b));
      }
    }
  }

  /** A turn is its own message, missing exactly when the turn is silent, and its tool messages. */
  lemma TurnShape(model: string, m: Json) returns (own: Json, tools: seq<Json>)
    ensures Translate(model, m) == (if Silent(m) then [] else [own]) + tools
    ensures !Silent(m) ==> !IsToolMessage(own) && CallIds(own) == UseIds(m)
    ensures forall t :: t in tools ==> IsToolMessage(t)
    ensures FlatMap(tools, AnswerIds) == ResultIds(m)
  {
    match Content(m)
    case Arr(blocks) =>
      own := TurnMessage(model, Role(m), TurnText(blocks), FlatMap(blocks, CallOf));
      tools := FlatMap(blocks, ResultOf);
      SameCount(blocks);
      assert UseIds(m) == FlatMap(blocks, UseIdOf) && ResultIds(m) == FlatMap(blocks, ResultIdOf);
      BlocksShape(model, Role(m), blocks);
    case Str(s) =>
      own, tools := PlainMessage(Role(m), s), [];
    case _ =>
      own, tools := PlainMessage(Role(m), ""), [];
  }

  lemma BlocksShape(model: string, role: string, blocks: seq<Json>)
    ensures FlatMap(FlatMap(blocks, ResultOf), AnswerIds) == FlatMap(blocks, ResultIdOf)
    ensures
      var own := TurnMessage(model, role, TurnText(blocks), FlatMap(blocks, CallOf));
      (TurnText(blocks) != "" || FlatMap(blocks, UseIdOf) != [] ==> !IsToolMessage(own)) &&
      CallIds(own) == FlatMap(blocks, UseIdOf)
  {
    ResultMessages(blocks);
    SameCount(blocks);
    TurnMessageIds(model, role, TurnText(blocks), FlatMap(blocks, CallOf));
  }

  /** Appending a turn: its results are checked against the calls before it if it is silent,
      and against its own calls otherwise. */
  lemma AnsweredTurn(model: string, msgs: seq<Json>, m: Json)
    ensures Answered(msgs + Translate(model, m)) <==>
      Answered(msgs) && AllIn(ResultIds(m), if Silent(m) then OpenCalls(msgs) else UseIds(m))
    ensures OpenCalls(msgs + Translate(model, m)) == if Silent(m) then OpenCalls(msgs) else UseIds(m)
  {
    var own, tools := TurnShape(model, m);
    AnsweredParts(msgs, if Silent(m) then [] else [own], tools);
  }

  lemma AnsweredParts(msgs: seq<Json>, own: seq<Json>, tools: seq<Json>)
    requires |own| <= 1 && (own != [] ==> !IsToolMessage(own[0]))
    requires forall t :: t in tools ==> IsToolMessage(t)
    ensures Answered(msgs + (own + tools)) <==>
      Answered(msgs) && AllIn(FlatMap(tools, AnswerIds), if own == [] then OpenCalls(msgs) else CallIds(own[0]))
    ensures OpenCalls(msgs + (own + tools)) == if own == [] then OpenCalls(msgs) else CallIds(own[0])
  {
    if own == [] {
      assert msgs + (own + tools) == msgs + tools;
      AnsweredTools(msgs, tools);
    } else {
      assert msgs + (own + tools) == msgs + [own[0]] + tools;
      AnsweredStep(msgs, own[0]);
      AnsweredTools(msgs + [own[0]], tools);
    }
  }

  /** Result turns directly follow the turn whose tool uses they answer. */
  ghost predicate Paired(turns: seq<Json>) {
    forall i :: 0 <= i < |turns| && ResultIds(turns[i]) != [] ==>
      i > 0 && AllIn(ResultIds(turns[i]), UseIds(turns[i - 1]))
  }

  /** A turn's results may stand where the translation puts them: a silent turn leaves them next
      to the turn before, any other turn puts its own message in front of them. */
  ghost predicate Undisturbed(m: Json) {
    ResultIds(m) == [] || Silent(m) || AllIn(ResultIds(m), UseIds(m))
  }

  ghost predicate Uninterrupted(turns: seq<Json>) {
    forall i :: 0 <= i < |turns| ==> Undisturbed(turns[i])
  }

  function LastUses(turns: seq<Json>): seq<string> {
    if turns == [] then [] else UseIds(turns[|turns| - 1])
  }

  lemma PairedInit(turns: seq<Json>, last: Json)
    requires Paired(turns + [last])
    ensures Paired(turns)
    ensures Uninterrupted(turns + [last]) <==> Uninterrupted(turns) && Undisturbed(last)
    ensures ResultIds(last) != [] ==> LastUses(turns) != [] && AllIn(ResultIds(last), LastUses(turns))
  {
    var all := turns + [last];
    assert forall i :: 0 <= i < |turns| ==> all[i] == turns[i];
    assert all[|turns|] == last;
    if ResultIds(last) != [] {
      assert ResultIds(last)[0] in ResultIds(last);
    }
  }

  lemma {:induction false} PairedTurnsAnswered(model: string, head: seq<Json>, turns: seq<Json>)
    requires Paired(turns) && Answered(head)
    ensures Answered(head + TranslateAll(model, turns)) <==> Uninterrupted(turns)
    ensures LastUses(turns) != [] ==> OpenCalls(head + TranslateAll(model, turns)) == LastUses(turns)
  {
    if turns == [] {
      assert head + TranslateAll(model, turns) == head;
    } else {
      var init, last := turns[..|turns| - 1], turns[|turns| - 1];
      assert turns == init + [last];
      PairedInit(init, last);
      PairedTurnsAnswered(model, head, init);
      TranslateAllSplit(model, head, init, last);
      PairedStep(model, head + TranslateAll(model, init), init, last);
    }
  }

  lemma PairedStep(model: string, before: seq<Json>, turns: seq<Json>, last: Json)
    requires ResultIds(last) != [] ==> LastUses(turns) != [] && AllIn(ResultIds(last), LastUses(turns))
    requires LastUses(turns) != [] ==> OpenCalls(before) == LastUses(turns)
    ensures Answered(before + Translate(model, last)) <==> Answered(before) && Undisturbed(last)
    ensures LastUses(turns + [last]) != [] ==> OpenCalls(before + Translate(model, last)) == LastUses(turns + [last])
  {
    AnsweredTurn(model, before, last);
  }

  lemma TranslateAllSplit(model: string, head: seq<Json>, turns: seq<Json>, last: Json)
    ensures head + TranslateAll(model, turns + [last]) == head + TranslateAll(model, turns) + Translate(model, last)
  {
    assert (turns + [last])[..|turns|] == turns;
  }

  /** In a conversation whose result turns directly follow the turn they answer, the translation
      keeps every tool message next to its call exactly when no result turn also carries text or
      tool uses of its own (unless it answers its own tool uses). */
  lemma ToolMessagesFollowCalls(body: Json)
    requires Paired(Turns(body))
    ensures Answered(Messages(body)) <==> Uninterrupted(Turns(body))
  {
    var system := SystemMessages(body);
    assert Answered(system) by {
      if system != [] {
        assert system[0].Get("tool_call_id") == None;
      }
    }
    PairedTurnsAnswered(RequestModel(body), system, Turns(body));
  }

  // ------------------------------------------------------------ echoing a reply back

  /** The assistant turn with which a client sends a reply back. */
  function EchoTurn(resp: Json): Json {
    Obj(map["role" := Str("assistant"), "content" := Arr(Blocks(resp))])
  }

  function EchoedCall(call: Json): Json {
    ToolCall(OpenAiSse.CallId(call), OpenAiSse.CallName(call), JsonText.Print(CallInput(call)))
  }

  function EchoOf(call: Json): seq<Json> { [EchoedCall(call)] }

  function EchoedCalls(calls: seq<Json>): seq<Json> {
    FlatMap(calls, EchoOf)
  }

  lemma BlockParts(text: string, call: Json)
    ensures TextOf(TextBlock(text)) == [text] && CallOf(TextBlock(text)) == [] == ResultOf(TextBlock(text))
    ensures TextOf(ToolUseBlock(call)) == [] && CallOf(ToolUseBlock(call)) == [EchoedCall(call)]
    ensures ResultOf(ToolUseBlock(call)) == []
  {
    assert BlockType(TextBlock(text)) == "text" && BlockType(ToolUseBlock(call)) == "tool_use";
    assert ToolUseId(ToolUseBlock(call)) == OpenAiSse.CallId(call);
    assert GetStr(ToolUseBlock(call), "name") == Some(OpenAiSse.CallName(call));
  }

  function NoText(call: Json): seq<string> { [] }
  function NoMessage(call: Json): seq<Json> { [] }

  lemma ToolUseParts(calls: seq<Json>)
    ensures FlatMap(ToolUseBlocks(calls), TextOf) == []
    ensures FlatMap(ToolUseBlocks(calls), CallOf) == EchoedCalls(calls)
    ensures FlatMap(ToolUseBlocks(calls), ResultOf) == []
  {
    forall c
      ensures FlatMap(UseBlockOf(c), TextOf) == NoText(c)
      ensures FlatMap(UseBlockOf(c), CallOf) == EchoOf(c)
      ensures FlatMap(UseBlockOf(c), ResultOf) == NoMessage(c)
    {
      BlockParts("", c);
      FlatMapOne(ToolUseBlock(c), TextOf);
      FlatMapOne(ToolUseBlock(c), CallOf);
      FlatMapOne(ToolUseBlock(c), ResultOf);
    }
    FlatMapNested(calls, UseBlockOf, TextOf, NoText);
    FlatMapNested(calls, UseBlockOf, CallOf, EchoOf);
    FlatMapNested(calls, UseBlockOf, ResultOf, NoMessage);
    FlatMapNone(calls, NoText);
    FlatMapNone(calls, NoMessage);
  }

  lemma EchoedCallsAt(calls: seq<Json>)
    ensures |EchoedCalls(calls)| == |calls|
    ensures forall i :: 0 <= i < |calls| ==> EchoedCalls(calls)[i] == EchoedCall(calls[i])
  {
    FlatMapSingles(calls, EchoOf);
  }

  lemma TextThenParts(text: string, calls: seq<Json>)
    ensures
      var blocks := [TextBlock(text)] + ToolUseBlocks(calls);
      FlatMap(blocks, TextOf) == [text] && FlatMap(blocks, CallOf) == EchoedCalls(calls) &&
      FlatMap(blocks, ResultOf) == []
  {
    var t := TextBlock(text);
    BlockParts(text, Null);
    ToolUseParts(calls);
    FlatMapFirst(t, ToolUseBlocks(calls), TextOf);
    FlatMapFirst(t, ToolUseBlocks(calls), CallOf);
    FlatMapFirst(t, ToolUseBlocks(calls), ResultOf);
  }

  lemma ReplyParts(resp: Json)
    ensures TurnText(Blocks(resp)) == OpenAiSse.ReplyText(resp)
    ensures FlatMap(Blocks(resp), CallOf) == EchoedCalls(OpenAiSse.ReplyCalls(resp))
    ensures FlatMap(Blocks(resp), ResultOf) == []
  {
    var text, calls := OpenAiSse.ReplyText(resp), OpenAiSse.ReplyCalls(resp);
    if text == "" && calls != [] {
      assert Blocks(resp) == ToolUseBlocks(calls);
      ToolUseParts(calls);
    } else {
      assert Blocks(resp) == [TextBlock(text)] + ToolUseBlocks(calls);
      TextThenParts(text, calls);
    }
  }

  /** A reply sent back as an assistant turn returns as one message with the same text and the
      same calls in order; an empty reply leaves no message. */
  lemma EchoReturnsReply(model: string, resp: Json)
    ensures Translate(model, EchoTurn(resp)) ==
      if OpenAiSse.ReplyText(resp) == "" && OpenAiSse.ReplyCalls(resp) == [] then []
      else [TurnMessage(model, "assistant", OpenAiSse.ReplyText(resp), EchoedCalls(OpenAiSse.ReplyCalls(resp)))]
  {
    ReplyParts(resp);
    assert Content(EchoTurn(resp)) == Arr(Blocks(resp)) && Role(EchoTurn(resp)) == "assistant";
    EchoedCallsAt(OpenAiSse.ReplyCalls(resp));
  }

  /** An echoed call keeps id and name. Its arguments keep their value exactly when the text the
      model produced was JSON; other text comes back as a JSON string. */
  lemma EchoedCallKeeps(call: Json)
    ensures OpenAiSse.CallId(EchoedCall(call)) == OpenAiSse.CallId(call)
    ensures OpenAiSse.CallName(EchoedCall(call)) == OpenAiSse.CallName(call)
    ensures RawArguments(call).Some? && RawArguments(call).value.Str? ==>
      (JsonText.Parse(OpenAiSse.CallArguments(EchoedCall(call))) == JsonText.Parse(OpenAiSse.CallArguments(call))
       <==> JsonText.Parse(OpenAiSse.CallArguments(call)).Some?)
  {
    assert OpenAiSse.CallArguments(EchoedCall(call)) == JsonText.Print(CallInput(call));
    if RawArguments(call).Some? && RawArguments(call).value.Str? {
      var text := RawArguments(call).value.s;
      assert OpenAiSse.CallArguments(call) == text;
      JsonText.ParsedReparses(text);
      JsonText.RoundTrip(Str(text));
    }
  }
}

/** Rebuilding the transcript a resumed Worker is handed: every tool call in its own assistant block,
    answered at once, so a provider never sees an orphan. */
module Resume {
  import opened Wrappers
  import opened Json

  /** A payload column: its text, and the JSON it parses to if it does. */
  datatype Payload = Payload(raw: string, json: Option<Value>)

  datatype TextContent = TextContent(kind: string, text: string)

  datatype ToolResult = ToolResult(content: seq<TextContent>, isError: bool)

  datatype TimelineStep =
    | Message(role: string, text: string)
    | ToolCall(id: string, name: string, request: Value, result: Option<Payload>)

  datatype Call = Call(id: string, name: string, arguments: Value)

  datatype Block =
    | User(text: string)
    | Assistant(said: Option<string>, calls: seq<Call>)
    | Result(toolCallId: string, result: ToolResult)

  const NOT_EXECUTED := "not executed; resubmit if still needed"
  const EXTERNAL_TOOL_PREFIX := "ticktick_"

  function TextResult(text: string, isError: bool): ToolResult {
    ToolResult([TextContent("text", text)], isError)
  }

  // ── one persisted payload ──────────────────────────────────────────────

  predicate IsExternal(name: string) {
    EXTERNAL_TOOL_PREFIX <= name
  }

  predicate IsTextContent(v: Value) {
    AsStr(Get(v, "type")).Some? && AsStr(Get(v, "text")).Some?
  }

  predicate IsContent(v: Option<Value>) {
    v.Some? && v.value.Arr? && forall i :: 0 <= i < |v.value.items| ==> IsTextContent(v.value.items[i])
  }

  function ReadContent(v: Value): seq<TextContent>
    requires IsContent(Some(v))
  {
    seq(|v.items|, i requires 0 <= i < |v.items| =>
      TextContent(AsStr(Get(v.items[i], "type")).value, AsStr(Get(v.items[i], "text")).value))
  }

  predicate IsTranscriptResult(v: Value) {
    IsContent(Get(v, "content")) && AsBool(Get(v, "is_error")).Some?
  }

  /** `transcript_result`: external verbatim, then a Decision, a Core success, a Core error, raw text. */
  function TranscriptResult(name: string, payload: Payload): ToolResult {
    match payload.json
    case None => TextResult(payload.raw, false)
    case Some(v) =>
      if IsExternal(name) && IsTranscriptResult(v)
      then ToolResult(ReadContent(Get(v, "content").value), AsBool(Get(v, "is_error")).value)
      else if Get(v, "decision").Some? && AsStr(Get(v, "content")).Some?
      then TextResult(AsStr(Get(v, "content")).value, AsBool(Get(v, "is_error")) == Some(true))
      else if IsContent(Get(v, "content")) then ToolResult(ReadContent(Get(v, "content").value), false)
      else if AsStr(Get(v, "message")).Some? && Get(v, "code").Some?
      then TextResult(AsStr(Get(v, "message")).value, true)
      else TextResult(payload.raw, false)
  }

  // What the writers persist.

  function ContentJson(content: seq<TextContent>): Value {
    Arr(seq(|content|, i requires 0 <= i < |content| =>
      Obj(map["type" := Str(content[i].kind), "text" := Str(content[i].text)])))
  }

  function ExternalJson(result: ToolResult): Value {
    Obj(map["content" := ContentJson(result.content), "is_error" := Bool(result.isError)])
  }

  /** The accept writer leaves the error flag out. */
  function AcceptJson(content: string): Value {
    Obj(map["decision" := Str("accept"), "content" := Str(content)])
  }

  function DecisionJson(decision: string, content: string, isError: bool): Value {
    Obj(map["decision" := Str(decision), "content" := Str(content), "is_error" := Bool(isError)])
  }

  /** A Core success keeps runtime sidecars beside its content. */
  function CoreSuccessJson(content: seq<TextContent>, sidecars: map<string, Value>): Value {
    Obj(sidecars["content" := ContentJson(content)])
  }

  function CoreErrorJson(code: string, message: string): Value {
    Obj(map["code" := Str(code), "message" := Str(message)])
  }

  lemma ContentReadsBack(content: seq<TextContent>)
    ensures IsContent(Some(ContentJson(content))) && ReadContent(ContentJson(content)) == content
  {
  }

  function OneText(text: string, isError: bool): ToolResult {
    ToolResult([TextContent("text", text)], isError)
  }

  /** What no writer wrote is never lost: text that is no JSON, and JSON of no known shape, replay verbatim as one
      text block, not as an error. A call is external exactly if its name starts with `ticktick_`. */
  lemma OtherPayloadsReplayRaw(name: string, payload: Payload)
    ensures payload.json.None? ==> TranscriptResult(name, payload) == OneText(payload.raw, false)
    ensures payload.json.Some? ==>
              var v := payload.json.value;
              var transcript := |name| >= 9 && name[..9] == "ticktick_" && IsContent(Get(v, "content")) && AsBool(Get(v, "is_error")).Some?;
              var decision := Get(v, "decision").Some? && AsStr(Get(v, "content")).Some?;
              var failure := AsStr(Get(v, "message")).Some? && Get(v, "code").Some?;
              !transcript && !decision && !IsContent(Get(v, "content")) && !failure ==> TranscriptResult(name, payload) == OneText(payload.raw, false)
    ensures IsExternal(name) <==> |name| >= 9 && name[..9] == "ticktick_"
  {
  }

  /** Each writer's payload replays as what it meant, errors as errors and successes as successes; a Core
      success loses its sidecars and nothing else. */
  lemma PayloadsReadBack(name: string, raw: string, result: ToolResult, decision: string, text: string, code: string, sidecars: map<string, Value>)
    ensures IsExternal(name) ==> TranscriptResult(name, Payload(raw, Some(ExternalJson(result)))) == result
    ensures TranscriptResult(name, Payload(raw, Some(DecisionJson(decision, text, result.isError)))) == OneText(text, result.isError)
    ensures TranscriptResult(name, Payload(raw, Some(AcceptJson(text)))) == OneText(text, false)
    ensures !IsExternal(name) ==> TranscriptResult(name, Payload(raw, Some(CoreSuccessJson(result.content, sidecars)))) == ToolResult(result.content, false)
    ensures TranscriptResult(name, Payload(raw, Some(CoreErrorJson(code, text)))) == OneText(text, true)
    ensures TranscriptResult(name, Payload(raw, None)) == OneText(raw, false)
  {
    ContentReadsBack(result.content);
    assert Get(ExternalJson(result), "content") == Some(ContentJson(result.content));
    assert Get(CoreSuccessJson(result.content, sidecars), "content") == Some(ContentJson(result.content));
  }

  // ── the transcript ─────────────────────────────────────────────────────

  function ResultOf(step: TimelineStep): ToolResult
    requires step.ToolCall?
  {
    match step.result
    case Some(payload) => TranscriptResult(step.name, payload)
    case None => TextResult(NOT_EXECUTED, false)
  }

  function BlocksOf(step: TimelineStep): seq<Block> {
    match step
    case Message(role, text) =>
      if role != "assistant" then [User(text)] else if text == "" then [] else [Assistant(Some(text), [])]
    case ToolCall(id, name, request, _) =>
      [Assistant(None, [Call(id, name, request)]), Result(id, ResultOf(step))]
  }

  function Transcript(steps: seq<TimelineStep>): seq<Block> {
    if steps == [] then [] else Transcript(steps[..|steps| - 1]) + BlocksOf(steps[|steps| - 1])
  }

  /** The last block is an assistant block without text. */
  predicate EndsTextless(blocks: seq<Block>) {
    blocks != [] && blocks[|blocks| - 1].Assistant? && blocks[|blocks| - 1].said.None?
  }

  /** `reconstruct`: one pass over the timeline, growing the blocks and pushing each call into the last
      one. The branch that would reuse a text-less block never runs. */
  method Reconstruct(steps: seq<TimelineStep>) returns (blocks: seq<Block>)
    ensures blocks == Transcript(steps)
    ensures !EndsTextless(blocks)
  {
    blocks := [];
    var i := 0;
    while i < |steps|
      invariant 0 <= i <= |steps|
      invariant blocks == Transcript(steps[..i]) && !EndsTextless(blocks)
    {
      var step := steps[i];
      ghost var before := blocks;
      assert steps[..i + 1][..i] == steps[..i];
      match step {
        case Message(role, text) =>
          if role == "assistant" {
            if text != "" {
              blocks := blocks + [Assistant(Some(text), [])];
            }
          } else {
            blocks := blocks + [User(text)];
          }
        case ToolCall(id, name, request, result) =>
          var attach := EndsTextless(blocks);
          if !attach {
            blocks := blocks + [Assistant(None, [])];
          }
          var last := |blocks| - 1;
          assert blocks[last].calls + [Call(id, name, request)] == [Call(id, name, request)];
          blocks := blocks[last := Assistant(None, blocks[last].calls + [Call(id, name, request)])];
          assert blocks == before + [Assistant(None, [Call(id, name, request)])];
          blocks := blocks + [Result(id, ResultOf(step))];
      }
      assert blocks == before + BlocksOf(step);
      i := i + 1;
    }
    assert steps[..i] == steps;
  }

  // ── what a provider requires of it ─────────────────────────────────────

  /** A call block: no text, one call, and its own result right behind it. */
  predicate Answered(blocks: seq<Block>, i: int)
    requires 0 <= i < |blocks|
  {
    && blocks[i].Assistant? && blocks[i].said.None? && |blocks[i].calls| == 1
    && i + 1 < |blocks| && blocks[i + 1].Result? && blocks[i + 1].toolCallId == blocks[i].calls[0].id
  }

  /** A user's block, text the assistant said, a call answered at once, or that answer. */
  predicate BlockOk(blocks: seq<Block>, i: int)
    requires 0 <= i < |blocks|
  {
    match blocks[i]
    case User(_) => true
    case Assistant(said, calls) => if said.Some? then said.value != "" && calls == [] else Answered(blocks, i)
    case Result(_, _) => i > 0 && Answered(blocks, i - 1)
  }

  predicate ProviderValid(blocks: seq<Block>) {
    forall i :: 0 <= i < |blocks| ==> BlockOk(blocks, i)
  }

  lemma {:induction false} TranscriptIsValid(steps: seq<TimelineStep>)
    ensures ProviderValid(Transcript(steps))
  {
    if steps != [] {
      var n := |steps| - 1;
      TranscriptIsValid(steps[..n]);
      var before, added := Transcript(steps[..n]), BlocksOf(steps[n]);
      var blocks := Transcript(steps);
      forall i | 0 <= i < |blocks| ensures BlockOk(blocks, i) {
        if i < |before| {
          assert BlockOk(before, i);
        } else if steps[n].ToolCall? {
          assert Answered(blocks, |before|);
        }
      }
    }
  }

  /** What the timeline says once results are resolved: the steps a transcript can show, in order. */
  datatype Said = UserSaid(text: string) | AssistantSaid(text: string) | Called(call: Call, result: ToolResult)

  function Shown(step: TimelineStep): seq<Said> {
    match step
    case Message(role, text) =>
      if role != "assistant" then [UserSaid(text)] else if text == "" then [] else [AssistantSaid(text)]
    case ToolCall(id, name, request, _) => [Called(Call(id, name, request), ResultOf(step))]
  }

  function Timeline(steps: seq<TimelineStep>): seq<Said> {
    if steps == [] then [] else Timeline(steps[..|steps| - 1]) + Shown(steps[|steps| - 1])
  }

  /** Cutting a valid transcript in front of a block that is not a result leaves a valid transcript. */
  lemma CutIsValid(blocks: seq<Block>, n: nat)
    requires n < |blocks| && ProviderValid(blocks) && !blocks[n].Result?
    ensures ProviderValid(blocks[..n])
  {
    forall i | 0 <= i < n ensures BlockOk(blocks[..n], i) {
      assert BlockOk(blocks, i);
    }
  }

  /** Reading a provider-valid transcript from the end. */
  function ReadBack(blocks: seq<Block>): seq<Said>
    requires ProviderValid(blocks)
    decreases |blocks|
  {
    if blocks == [] then []
    else
      var n := |blocks| - 1;
      assert BlockOk(blocks, n);
      match blocks[n]
      case User(text) => CutIsValid(blocks, n); ReadBack(blocks[..n]) + [UserSaid(text)]
      case Assistant(said, _) =>
        if said.Some? then CutIsValid(blocks, n); ReadBack(blocks[..n]) + [AssistantSaid(said.value)] else []
      case Result(_, result) =>
        CutIsValid(blocks, n - 1);
        ReadBack(blocks[..n - 1]) + [Called(blocks[n - 1].calls[0], result)]
  }

  lemma {:induction false} ReadsOneStep(before: seq<Block>, step: TimelineStep)
    requires ProviderValid(before) && ProviderValid(before + BlocksOf(step))
    ensures ReadBack(before + BlocksOf(step)) == ReadBack(before) + Shown(step)
  {
    var blocks := before + BlocksOf(step);
    if |BlocksOf(step)| == 0 {
      assert blocks == before;
    } else {
      assert blocks[..|before|] == before;
    }
  }

  /** Nothing is lost, reordered or invented: the transcript reads back to the timeline, less only the
      assistant segments that are empty. */
  lemma {:induction false} TranscriptReadsBack(steps: seq<TimelineStep>)
    ensures ProviderValid(Transcript(steps)) && ReadBack(Transcript(steps)) == Timeline(steps)
  {
    TranscriptIsValid(steps);
    if steps != [] {
      TranscriptReadsBack(steps[..|steps| - 1]);
      ReadsOneStep(Transcript(steps[..|steps| - 1]), steps[|steps| - 1]);
    }
  }

  /** A timeline that ends with a call gives a transcript that ends with that call's result. */
  lemma {:induction false} EndsWithTheDecision(steps: seq<TimelineStep>)
    requires steps != [] && steps[|steps| - 1].ToolCall?
    ensures var blocks := Transcript(steps);
            blocks != [] && blocks[|blocks| - 1] == Result(steps[|steps| - 1].id, ResultOf(steps[|steps| - 1]))
  {
  }
}

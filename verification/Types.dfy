// The values every other module shares: content blocks, messages, stream events.

module Types {

  datatype Option<+T> = None | Some(value: T)

  // serde_json::Value. Numbers are kept as integers; no rule below looks at one.
  datatype Json =
    | JNull
    | JBool(b: bool)
    | JNumber(n: int)
    | JString(s: string)
    | JArray(items: seq<Json>)
    | JObject(fields: map<string, Json>)

  // serde_json::from_str, left abstract: None is a parse error.
  type JsonParser = string -> Option<Json>

  datatype ContentBlock =
    | Text(text: string)
    | ToolUse(id: string, name: string, input: Json)
    | ToolResult(toolUseId: string, content: seq<string>, isError: Option<bool>)
    | Image(source: string)

  datatype Role = User | Assistant

  // Database row ids and Unix timestamps are unbounded integers here.
  datatype Message = Message(
    id: int,
    createdAt: int,
    role: Role,
    textContent: Option<string>,
    content: seq<ContentBlock>,
    inputTokens: Option<int>,
    outputTokens: Option<int>)

  datatype StopReason = EndTurn | ToolUseStop | MaxTokens | StopSequence

  datatype Usage = Usage(inputTokens: int, outputTokens: int)

  const ZERO_USAGE := Usage(0, 0)

  datatype ContentDelta = TextDelta(text: string) | InputDelta(partialJson: string)

  datatype StreamEvent =
    | BlockStart(index: nat, block: ContentBlock)
    | BlockDelta(index: nat, delta: ContentDelta)
    | BlockStop(index: nat)
    | MessageStop(reason: StopReason)
    | UsageReport(usage: Usage)

  // A tool the model asks to run.
  datatype Call = Call(id: string, name: string, input: Json)

  // The calls among a reply's blocks, in order.
  function CallsOf(blocks: seq<ContentBlock>): (calls: seq<Call>) {
    if blocks == [] then []
    else
      (if blocks[0].ToolUse? then [Call(blocks[0].id, blocks[0].name, blocks[0].input)] else [])
      + CallsOf(blocks[1..])
  }

  function CallIds(calls: seq<Call>): (ids: seq<string>)
    ensures |ids| == |calls|
    ensures forall k :: 0 <= k < |calls| ==> ids[k] == calls[k].id
  {
    seq(|calls|, k requires 0 <= k < |calls| => calls[k].id)
  }

  // The tool-use ids a list of blocks answers, in order.
  function ResultIds(blocks: seq<ContentBlock>): (ids: seq<string>) {
    if blocks == [] then []
    else
      (if blocks[0].ToolResult? then [blocks[0].toolUseId] else []) + ResultIds(blocks[1..])
  }

  lemma {:induction false} ResultIdsAppend(a: seq<ContentBlock>, b: seq<ContentBlock>)
    ensures ResultIds(a + b) == ResultIds(a) + ResultIds(b)
  {
    if a == [] {
      assert a + b == b;
    } else {
      assert (a + b)[1..] == a[1..] + b;
      ResultIdsAppend(a[1..], b);
    }
  }

  // The texts among a message's blocks, in order.
  function TextsOf(blocks: seq<ContentBlock>): seq<string> {
    if blocks == [] then []
    else (if blocks[0].Text? then [blocks[0].text] else []) + TextsOf(blocks[1..])
  }
}

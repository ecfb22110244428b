/**
 Handing a session from one agent to another: the serializers and parsers of
 apps/context-workbench/lib/session-fabric.js for the Claude and Codex transcript formats. The text
 of a transcript is its rows; JSON.stringify of a value that is not a string is the value's `text`.
 */
module SessionHandoff {
  import opened Options

  datatype Role = User | Assistant | System | Tool

  datatype Value = Text(text: string) | Json(text: string)

  datatype Call = Call(id: string, name: string, arguments: Option<Value>, result: Option<Value>)

  /** A message of a validated canonical session. */
  datatype Message = Message(id: string, parent: Option<string>, role: Role, content: string, reasoning: Option<string>,
                             calls: seq<Call>, createdAt: string)

  type Results = map<string, string>

  function Arguments(c: Call): Value {
    if c.arguments.Some? then c.arguments.value else Json("{}")
  }

  function Stringified(v: Option<Value>): Option<string> {
    if v.Some? then Some(v.value.text) else None
  }

  function Reasoning(m: Message): string {
    if m.reasoning.Some? then m.reasoning.value else ""
  }

  function Lookup(results: Results, id: string): Option<Value> {
    if id in results then Some(Text(results[id])) else None
  }

  /** filter(Boolean).join("\n") */
  function Join(parts: seq<string>): string {
    if parts == [] then "" else
    var rest := Join(parts[1..]);
    if parts[0] == "" then rest else if AllEmpty(parts[1..]) then parts[0] else parts[0] + "\n" + rest
  }

  predicate AllEmpty(parts: seq<string>) {
    forall p <- parts :: p == ""
  }

  function NonEmptyOnes(parts: seq<string>): (kept: seq<string>)
    ensures forall p :: p in kept <==> p in parts && p != ""
  {
    if parts == [] then [] else (if parts[0] != "" then [parts[0]] else []) + NonEmptyOnes(parts[1..])
  }

  /** Where part i starts when every part is followed by one newline. */
  function StartOf(parts: seq<string>, i: nat): nat
    requires i <= |parts|
  {
    if i == 0 then 0 else StartOf(parts, i - 1) + |parts[i - 1]| + 1
  }

  lemma {:induction false} StartOfShifts(part: string, rest: seq<string>, i: nat)
    requires i <= |rest|
    ensures StartOf([part] + rest, i + 1) == |part| + 1 + StartOf(rest, i)
  {
    if i > 0 { StartOfShifts(part, rest, i - 1); }
  }

  /** This part stands in the text at this place, and a newline behind it unless it is the last one. */
  ghost predicate StandsAt(text: string, part: string, start: nat, last: bool) {
    && start + |part| <= |text| && text[start..start + |part|] == part
    && (!last ==> start + |part| < |text| && text[start + |part|] == '\n')
  }

  /** These parts, each in its place, a newline between one and the next, and nothing else. */
  ghost predicate LaidOut(text: string, parts: seq<string>) {
    && |text| == (if parts == [] then 0 else StartOf(parts, |parts|) - 1)
    && forall i :: 0 <= i < |parts| ==> StandsAt(text, parts[i], StartOf(parts, i), i == |parts| - 1)
  }

  lemma StandsLater(before: string, text: string, part: string, start: nat, last: bool)
    requires StandsAt(text, part, start, last)
    ensures StandsAt(before + text, part, |before| + start, last)
  {
    var all := before + text;
    assert all[|before| + start..|before| + start + |part|] == text[start..start + |part|];
  }

  lemma OthersStandLater(part: string, text: string, rest: seq<string>, i: nat)
    requires LaidOut(text, rest) && i < |rest|
    ensures StandsAt(part + "\n" + text, rest[i], StartOf([part] + rest, i + 1), i == |rest| - 1)
  {
    hide StandsAt, StartOf;
    StartOfShifts(part, rest, i);
    StandsLater(part + "\n", text, rest[i], StartOf(rest, i), i == |rest| - 1);
  }

  lemma OneMoreLaidOut(part: string, text: string, rest: seq<string>)
    requires LaidOut(text, rest) && rest != []
    ensures LaidOut(part + "\n" + text, [part] + rest)
  {
    hide StandsAt, StartOf;
    var parts := [part] + rest;
    StartsWithFirst(parts);
    StartOfShifts(part, rest, |rest|);
    FirstStands(part, text);
    forall i | 0 < i < |parts| ensures StandsAt(part + "\n" + text, parts[i], StartOf(parts, i), i == |parts| - 1) {
      OthersStandLater(part, text, rest, i - 1);
    }
  }

  lemma StartsWithFirst(parts: seq<string>)
    ensures StartOf(parts, 0) == 0
    ensures parts != [] ==> StartOf(parts, |parts|) > 0
  {
  }

  lemma FirstStands(part: string, text: string)
    ensures StandsAt(part + "\n" + text, part, 0, false)
  {
    assert (part + "\n" + text)[0..|part|] == part;
  }

  lemma {:induction false} NothingKept(parts: seq<string>)
    requires AllEmpty(parts)
    ensures NonEmptyOnes(parts) == []
  {
    if parts != [] {
      assert parts[0] in parts && forall p :: p in parts[1..] ==> p in parts;
      NothingKept(parts[1..]);
    }
  }

  /** The joined text consists of every non-empty part, in order, with one newline between two. */
  lemma {:induction false} JoinLaysOut(parts: seq<string>)
    ensures LaidOut(Join(parts), NonEmptyOnes(parts))
  {
    if parts != [] {
      JoinLaysOut(parts[1..]);
      var rest := NonEmptyOnes(parts[1..]);
      if parts[0] != "" {
        if AllEmpty(parts[1..]) {
          NothingKept(parts[1..]);
          assert [parts[0]] + rest == [parts[0]];
        } else {
          var p :| p in parts[1..] && p != "";
          assert p in rest;
          OneMoreLaidOut(parts[0], Join(parts[1..]), rest);
        }
      } else {
        assert NonEmptyOnes(parts) == rest;
      }
    }
  }

  // ---------------------------------------------------------------- Claude transcripts

  datatype Block =
    | Thinking(thinking: string)
    | TextBlock(text: string)
    | ToolUse(id: string, name: string, input: Value)
    | ToolResult(toolUseId: string, content: string)

  datatype Content = Plain(text: string) | Blocks(blocks: seq<Block>)

  datatype ClaudeRow = ClaudeRow(kind: string, uuid: string, parentUuid: Option<string>, timestamp: string, role: Role,
                                 content: Content)

  function OneCallBlocks(c: Call): seq<Block> {
    [ToolUse(c.id, c.name, Arguments(c))] + if c.result.Some? then [ToolResult(c.id, c.result.value.text)] else []
  }

  function CallBlocks(calls: seq<Call>): seq<Block> {
    if calls == [] then [] else OneCallBlocks(calls[0]) + CallBlocks(calls[1..])
  }

  function TextBlocks(m: Message): seq<Block> {
    (if Reasoning(m) != "" then [Thinking(Reasoning(m))] else [])
    + (if m.content != "" then [TextBlock(m.content)] else [])
  }

  function ToClaude(m: Message): ClaudeRow {
    var blocks := TextBlocks(m) + CallBlocks(m.calls);
    ClaudeRow(if m.role.User? then "user" else if m.role.System? then "system" else "assistant",
              m.id, m.parent, m.createdAt, m.role, if blocks == [] then Plain(m.content) else Blocks(blocks))
  }

  function BlocksOf(row: ClaudeRow): seq<Block> {
    if row.content.Blocks? then row.content.blocks else []
  }

  /** The first pass: later results overwrite earlier ones under the same id. */
  function BlockResults(results: Results, blocks: seq<Block>): Results
    decreases |blocks|
  {
    if blocks == [] then results
    else BlockResults(if blocks[0].ToolResult? then results[blocks[0].toolUseId := blocks[0].content] else results,
                      blocks[1..])
  }

  function ClaudeResults(results: Results, rows: seq<ClaudeRow>): Results
    decreases |rows|
  {
    if rows == [] then results else ClaudeResults(BlockResults(results, BlocksOf(rows[0])), rows[1..])
  }

  /** textFromContent takes thinking blocks too. */
  function VisibleTexts(blocks: seq<Block>): seq<string> {
    if blocks == [] then []
    else (match blocks[0] case TextBlock(text) => [text] case Thinking(text) => [text] case _ => [])
         + VisibleTexts(blocks[1..])
  }

  function ThinkingTexts(blocks: seq<Block>): seq<string> {
    if blocks == [] then []
    else (if blocks[0].Thinking? then [blocks[0].thinking] else []) + ThinkingTexts(blocks[1..])
  }

  function CallsIn(blocks: seq<Block>, results: Results): seq<Call> {
    if blocks == [] then []
    else (match blocks[0]
          case ToolUse(id, name, input) => [Call(id, name, Some(input), Lookup(results, id))]
          case _ => [])
         + CallsIn(blocks[1..], results)
  }

  function NonEmpty(s: string): Option<string> {
    if s == "" then None else Some(s)
  }

  function ClaudeMessage(row: ClaudeRow, results: Results): Option<Message> {
    var visible := if row.content.Plain? then row.content.text else Join(VisibleTexts(BlocksOf(row)));
    var reasoning := Join(ThinkingTexts(BlocksOf(row)));
    var calls := CallsIn(BlocksOf(row), results);
    if visible == "" && calls == [] && reasoning == "" then None
    else Some(Message(row.uuid, row.parentUuid, row.role, visible, NonEmpty(reasoning), calls, row.timestamp))
  }

  function ClaudeMessages(rows: seq<ClaudeRow>, results: Results): seq<Message> {
    if rows == [] then [] else
    var m := ClaudeMessage(rows[0], results);
    (if m.Some? then [m.value] else []) + ClaudeMessages(rows[1..], results)
  }

  function FromClaude(rows: seq<ClaudeRow>): seq<Message> {
    ClaudeMessages(rows, ClaudeResults(map[], rows))
  }

  function AllToClaude(messages: seq<Message>): seq<ClaudeRow> {
    if messages == [] then [] else [ToClaude(messages[0])] + AllToClaude(messages[1..])
  }

  // ---------------------------------------------------------------- Codex transcripts

  datatype Item =
    | ReasoningItem(text: string)
    | MessageItem(role: Role, texts: seq<string>)
    | FunctionCall(callId: string, name: string, arguments: string)
    | FunctionOutput(callId: string, output: string)

  datatype CodexRow = CodexRow(id: string, item: Item)

  function OneCallItems(c: Call): seq<Item> {
    [FunctionCall(c.id, c.name, Arguments(c).text)]
    + if c.result.Some? then [FunctionOutput(c.id, c.result.value.text)] else []
  }

  function CallItems(calls: seq<Call>): seq<Item> {
    if calls == [] then [] else OneCallItems(calls[0]) + CallItems(calls[1..])
  }

  function ToCodex(m: Message): seq<Item> {
    (if Reasoning(m) != "" then [ReasoningItem(Reasoning(m))] else [])
    + (if m.content != "" then [MessageItem(m.role, [m.content])] else [])
    + CallItems(m.calls)
  }

  function AllToCodex(messages: seq<Message>): seq<Item> {
    if messages == [] then [] else ToCodex(messages[0]) + AllToCodex(messages[1..])
  }

  function CodexResults(results: Results, items: seq<Item>): Results
    decreases |items|
  {
    if items == [] then results
    else CodexResults(if items[0].FunctionOutput? then results[items[0].callId := items[0].output] else results,
                      items[1..])
  }

  /** What a parsed transcript says, message boundaries aside. */
  datatype Said =
    | Thought(text: string)
    | Spoke(role: Role, text: string)
    | Called(id: string, name: string, arguments: string, result: Option<string>)

  function CallTrace(calls: seq<Call>): seq<Said> {
    if calls == [] then [] else
    var c := calls[0];
    [Called(c.id, c.name, Arguments(c).text, Stringified(c.result))] + CallTrace(calls[1..])
  }

  function MessageTrace(m: Message): seq<Said> {
    (if Reasoning(m) != "" then [Thought(Reasoning(m))] else [])
    + (if m.content != "" then [Spoke(m.role, m.content)] else [])
    + CallTrace(m.calls)
  }

  /** The flattened trace of a session. */
  function Trace(messages: seq<Message>): seq<Said> {
    if messages == [] then [] else MessageTrace(messages[0]) + Trace(messages[1..])
  }

  /** One row of the second pass; ids that are not in the row are made up by the parser. */
  function CodexMessage(row: CodexRow, results: Results, madeUp: string): Option<Message> {
    match row.item
    case FunctionOutput(_, _) => None
    case FunctionCall(callId, name, arguments) =>
      Some(Message(row.id, None, Assistant, "", None,
                   [Call(callId, name, Some(Text(arguments)), Lookup(results, callId))], madeUp))
    case ReasoningItem(text) => Some(Message(row.id, None, Assistant, "", NonEmpty(text), [], madeUp))
    case MessageItem(role, texts) => Some(Message(row.id, None, role, Join(texts), None, [], madeUp))
  }

  function CodexMessages(rows: seq<CodexRow>, results: Results, madeUp: string): seq<Message> {
    if rows == [] then [] else
    var m := CodexMessage(rows[0], results, madeUp);
    (if m.Some? then [m.value] else []) + CodexMessages(rows[1..], results, madeUp)
  }

  function Items(rows: seq<CodexRow>): (items: seq<Item>)
    ensures |items| == |rows|
  {
    if rows == [] then [] else [rows[0].item] + Items(rows[1..])
  }

  function FromCodex(rows: seq<CodexRow>, now: string): seq<Message> {
    CodexMessages(rows, CodexResults(map[], Items(rows)), now)
  }

  // ---------------------------------------------------------------- the running code

  /** messageToClaudeRows */
  method MessageToClaudeRows(m: Message) returns (row: ClaudeRow)
    ensures row == ToClaude(m)
  {
    var blocks: seq<Block> := [];
    if Reasoning(m) != "" { blocks := blocks + [Thinking(Reasoning(m))]; }
    if m.content != "" { blocks := blocks + [TextBlock(m.content)]; }
    assert m.calls[0..] == m.calls;
    for i := 0 to |m.calls|
      invariant blocks + CallBlocks(m.calls[i..]) == TextBlocks(m) + CallBlocks(m.calls)
    {
      ghost var before := blocks;
      var call := m.calls[i];
      assert m.calls[i..][1..] == m.calls[i + 1..];
      blocks := blocks + [ToolUse(call.id, call.name, Arguments(call))];
      if call.result.Some? {
        blocks := blocks + [ToolResult(call.id, call.result.value.text)];
      }
      assert before + CallBlocks(m.calls[i..]) == blocks + CallBlocks(m.calls[i + 1..]);
    }
    assert m.calls[|m.calls|..] == [] && blocks == TextBlocks(m) + CallBlocks(m.calls);
    var kind := if m.role.User? then "user" else if m.role.System? then "system" else "assistant";
    row := ClaudeRow(kind, m.id, m.parent, m.createdAt, m.role,
                     if |blocks| > 0 then Blocks(blocks) else Plain(m.content));
  }

  /** messageToCodexRows, without the random row ids. */
  method MessageToCodexRows(m: Message) returns (items: seq<Item>)
    ensures items == ToCodex(m)
  {
    items := [];
    if Reasoning(m) != "" { items := items + [ReasoningItem(Reasoning(m))]; }
    if m.content != "" { items := items + [MessageItem(m.role, [m.content])]; }
    assert m.calls[0..] == m.calls;
    for i := 0 to |m.calls|
      invariant items + CallItems(m.calls[i..]) == ToCodex(m)
    {
      ghost var before := items;
      var call := m.calls[i];
      assert m.calls[i..][1..] == m.calls[i + 1..];
      items := items + [FunctionCall(call.id, call.name, Arguments(call).text)];
      if call.result.Some? {
        items := items + [FunctionOutput(call.id, call.result.value.text)];
      }
      assert before + CallItems(m.calls[i..]) == items + CallItems(m.calls[i + 1..]);
    }
  }

  /** The first loop of normalizeClaude. */
  method CollectClaudeResults(rows: seq<ClaudeRow>) returns (resultMap: Results)
    ensures resultMap == ClaudeResults(map[], rows)
  {
    resultMap := map[];
    for i := 0 to |rows|
      invariant ClaudeResults(resultMap, rows[i..]) == ClaudeResults(map[], rows)
    {
      assert rows[i..][1..] == rows[i + 1..];
      var blocks := BlocksOf(rows[i]);
      ghost var before := resultMap;
      for j := 0 to |blocks|
        invariant BlockResults(resultMap, blocks[j..]) == BlockResults(before, blocks)
      {
        assert blocks[j..][1..] == blocks[j + 1..];
        if blocks[j].ToolResult? {
          resultMap := resultMap[blocks[j].toolUseId := blocks[j].content];
        }
      }
    }
  }

  function Listed(m: Option<Message>): seq<Message> {
    if m.Some? then [m.value] else []
  }

  lemma ClaudeStep(sofar: seq<Message>, rows: seq<ClaudeRow>, i: nat, results: Results)
    requires i < |rows|
    ensures sofar + ClaudeMessages(rows[i..], results) ==
            sofar + Listed(ClaudeMessage(rows[i], results)) + ClaudeMessages(rows[i + 1..], results)
  {
  }

  lemma CodexStep(sofar: seq<Message>, rows: seq<CodexRow>, i: nat, results: Results, madeUp: string)
    requires i < |rows|
    ensures sofar + CodexMessages(rows[i..], results, madeUp) ==
            sofar + Listed(CodexMessage(rows[i], results, madeUp)) + CodexMessages(rows[i + 1..], results, madeUp)
  {
  }

  lemma NothingParsed(results: Results)
    ensures ClaudeMessages([], results) == []
  {
  }

  /** normalizeClaude */
  method NormalizeClaude(rows: seq<ClaudeRow>) returns (messages: seq<Message>)
    ensures messages == FromClaude(rows)
  {
    hide CallsIn, Join, ThinkingTexts, VisibleTexts, BlocksOf, ClaudeMessages;
    assert rows[0..] == rows && rows[|rows|..] == [];
    NothingParsed(ClaudeResults(map[], rows));
    var resultMap := CollectClaudeResults(rows);
    messages := [];
    for i := 0 to |rows|
      invariant messages + ClaudeMessages(rows[i..], resultMap) == ClaudeMessages(rows, resultMap)
    {
      var row := rows[i];
      ClaudeStep(messages, rows, i, resultMap);
      var blocks := BlocksOf(row);
      var toolCalls := CallsIn(blocks, resultMap);
      var reasoning := Join(ThinkingTexts(blocks));
      var visibleText := if row.content.Plain? then row.content.text else Join(VisibleTexts(blocks));
      if visibleText == "" && toolCalls == [] && reasoning == "" {
        assert messages + [] == messages;
        continue;
      }
      messages := messages + [Message(row.uuid, row.parentUuid, row.role, visibleText, NonEmpty(reasoning), toolCalls,
                                      row.timestamp)];
    }
  }

  /** normalizeCodex; `now` stands for the missing timestamps. */
  method NormalizeCodex(rows: seq<CodexRow>, now: string) returns (messages: seq<Message>)
    ensures messages == FromCodex(rows, now)
  {
    var resultMap: Results := map[];
    for i := 0 to |rows|
      invariant CodexResults(resultMap, Items(rows[i..])) == CodexResults(map[], Items(rows))
    {
      assert rows[i..][1..] == rows[i + 1..];
      assert Items(rows[i..])[1..] == Items(rows[i + 1..]);
      if rows[i].item.FunctionOutput? {
        resultMap := resultMap[rows[i].item.callId := rows[i].item.output];
      }
    }
    messages := [];
    for i := 0 to |rows|
      invariant messages + CodexMessages(rows[i..], resultMap, now) == CodexMessages(rows, resultMap, now)
    {
      var row := rows[i];
      CodexStep(messages, rows, i, resultMap, now);
      if row.item.FunctionOutput? {
        assert messages + [] == messages;
        continue;
      }
      if row.item.FunctionCall? {
        var call := Call(row.item.callId, row.item.name, Some(Text(row.item.arguments)),
                         Lookup(resultMap, row.item.callId));
        messages := messages + [Message(row.id, None, Assistant, "", None, [call], now)];
        continue;
      }
      if row.item.ReasoningItem? {
        messages := messages + [Message(row.id, None, Assistant, "", NonEmpty(row.item.text), [], now)];
      } else {
        messages := messages + [Message(row.id, None, row.item.role, Join(row.item.texts), None, [], now)];
      }
    }
  }

  // ---------------------------------------------------------------- what the result map holds

  function AllCalls(messages: seq<Message>): seq<Call> {
    if messages == [] then [] else messages[0].calls + AllCalls(messages[1..])
  }

  function CallResults(results: Results, calls: seq<Call>): Results
    decreases |calls|
  {
    if calls == [] then results
    else CallResults(if calls[0].result.Some? then results[calls[0].id := calls[0].result.value.text] else results,
                     calls[1..])
  }

  /** Calls that share an id have the same result, up to JSON.stringify. */
  ghost predicate SameIdsAgree(calls: seq<Call>) {
    forall i, j :: 0 <= i < |calls| && 0 <= j < |calls| && calls[i].id == calls[j].id ==>
      Stringified(calls[i].result) == Stringified(calls[j].result)
  }

  /** A parser that has this map gives the call its own result back. */
  predicate Recovers(results: Results, c: Call) {
    Stringified(Lookup(results, c.id)) == Stringified(c.result)
  }

  predicate RecoversAll(results: Results, calls: seq<Call>) {
    forall i :: 0 <= i < |calls| ==> Recovers(results, calls[i])
  }

  lemma {:induction false} ResultsOfCalls(results: Results, calls: seq<Call>, id: string)
    ensures var all := CallResults(results, calls);
            && (forall i :: 0 <= i < |calls| && calls[i].id == id && calls[i].result.Some? ==> id in all)
            && (id in results ==> id in all)
            && (id in all ==>
                  (id in results && all[id] == results[id])
                  || exists i :: 0 <= i < |calls| && calls[i].id == id && Stringified(calls[i].result) == Some(all[id]))
    decreases |calls|
  {
    if calls != [] {
      var next := if calls[0].result.Some? then results[calls[0].id := calls[0].result.value.text] else results;
      ResultsOfCalls(next, calls[1..], id);
      forall i | 0 <= i < |calls| && calls[i].id == id && calls[i].result.Some?
        ensures id in CallResults(results, calls)
      {
        if i > 0 { assert calls[1..][i - 1] == calls[i]; }
      }
    }
  }

  lemma MapRecoversIffAgree(calls: seq<Call>)
    ensures RecoversAll(CallResults(map[], calls), calls) <==> SameIdsAgree(calls)
  {
    var all := CallResults(map[], calls);
    hide CallResults;
    if SameIdsAgree(calls) {
      forall i | 0 <= i < |calls| ensures Recovers(all, calls[i]) {
        ResultsOfCalls(map[], calls, calls[i].id);
      }
    }
    if RecoversAll(all, calls) {
      forall i, j | 0 <= i < |calls| && 0 <= j < |calls| && calls[i].id == calls[j].id
        ensures Stringified(calls[i].result) == Stringified(calls[j].result)
      {
        assert Recovers(all, calls[i]) && Recovers(all, calls[j]);
      }
    }
  }

  lemma {:induction false} CallResultsJoin(results: Results, a: seq<Call>, b: seq<Call>)
    ensures CallResults(results, a + b) == CallResults(CallResults(results, a), b)
    decreases |a|
  {
    if a == [] {
      assert a + b == b;
    } else {
      assert (a + b)[1..] == a[1..] + b;
      CallResultsJoin(if a[0].result.Some? then results[a[0].id := a[0].result.value.text] else results, a[1..], b);
    }
  }

  // ---------------------------------------------------------------- Claude and back

  lemma {:induction false} BlockResultsJoin(results: Results, a: seq<Block>, b: seq<Block>)
    ensures BlockResults(results, a + b) == BlockResults(BlockResults(results, a), b)
    decreases |a|
  {
    if a == [] {
      assert a + b == b;
    } else {
      assert (a + b)[1..] == a[1..] + b;
      BlockResultsJoin(if a[0].ToolResult? then results[a[0].toolUseId := a[0].content] else results, a[1..], b);
    }
  }

  lemma {:induction false} CallBlockResults(results: Results, calls: seq<Call>)
    ensures BlockResults(results, CallBlocks(calls)) == CallResults(results, calls)
    decreases |calls|
  {
    if calls != [] {
      var c := calls[0];
      BlockResultsJoin(results, OneCallBlocks(c), CallBlocks(calls[1..]));
      if c.result.Some? { assert OneCallBlocks(c)[1..] == [ToolResult(c.id, c.result.value.text)]; }
      CallBlockResults(if c.result.Some? then results[c.id := c.result.value.text] else results, calls[1..]);
    }
  }

  lemma RowResults(results: Results, m: Message)
    ensures BlockResults(results, BlocksOf(ToClaude(m))) == CallResults(results, m.calls)
  {
    CallBlockResults(results, m.calls);
    BlockResultsJoin(results, TextBlocks(m), CallBlocks(m.calls));
    NoResults(results, TextBlocks(m));
  }

  lemma {:induction false} NoResults(results: Results, blocks: seq<Block>)
    requires forall i :: 0 <= i < |blocks| ==> !blocks[i].ToolResult?
    ensures BlockResults(results, blocks) == results
  {
    if blocks != [] { NoResults(results, blocks[1..]); }
  }

  lemma {:induction false} ClaudeResultsAreCalls(results: Results, messages: seq<Message>)
    ensures ClaudeResults(results, AllToClaude(messages)) == CallResults(results, AllCalls(messages))
    decreases |messages|
  {
    hide BlockResults, ToClaude, BlocksOf;
    if messages != [] {
      var m := messages[0];
      RowResults(results, m);
      assert AllToClaude(messages)[1..] == AllToClaude(messages[1..]);
      CallResultsJoin(results, m.calls, AllCalls(messages[1..]));
      ClaudeResultsAreCalls(CallResults(results, m.calls), messages[1..]);
    }
  }

  function RecoveredCalls(calls: seq<Call>, results: Results): (r: seq<Call>)
    ensures |r| == |calls|
  {
    if calls == [] then [] else
    [Call(calls[0].id, calls[0].name, Some(Arguments(calls[0])), Lookup(results, calls[0].id))]
    + RecoveredCalls(calls[1..], results)
  }

  function KeptCalls(calls: seq<Call>): (r: seq<Call>)
    ensures |r| == |calls|
  {
    if calls == [] then [] else
    var text := Stringified(calls[0].result);
    [Call(calls[0].id, calls[0].name, Some(Arguments(calls[0])), if text.Some? then Some(Text(text.value)) else None)]
    + KeptCalls(calls[1..])
  }

  lemma {:induction false} CallsJoin(a: seq<Block>, b: seq<Block>, results: Results)
    ensures CallsIn(a + b, results) == CallsIn(a, results) + CallsIn(b, results)
  {
    hide Lookup;
    if a == [] {
      assert a + b == b;
    } else {
      assert (a + b)[1..] == a[1..] + b;
      CallsJoin(a[1..], b, results);
    }
  }

  lemma {:induction false} VisibleJoin(a: seq<Block>, b: seq<Block>)
    ensures VisibleTexts(a + b) == VisibleTexts(a) + VisibleTexts(b)
  {
    if a == [] {
      assert a + b == b;
    } else {
      assert (a + b)[1..] == a[1..] + b;
      VisibleJoin(a[1..], b);
    }
  }

  lemma {:induction false} ThinkingJoin(a: seq<Block>, b: seq<Block>)
    ensures ThinkingTexts(a + b) == ThinkingTexts(a) + ThinkingTexts(b)
  {
    if a == [] {
      assert a + b == b;
    } else {
      assert (a + b)[1..] == a[1..] + b;
      ThinkingJoin(a[1..], b);
    }
  }

  lemma ReadsJoin(a: seq<Block>, b: seq<Block>, results: Results)
    ensures CallsIn(a + b, results) == CallsIn(a, results) + CallsIn(b, results)
    ensures VisibleTexts(a + b) == VisibleTexts(a) + VisibleTexts(b)
    ensures ThinkingTexts(a + b) == ThinkingTexts(a) + ThinkingTexts(b)
  {
    CallsJoin(a, b, results);
    VisibleJoin(a, b);
    ThinkingJoin(a, b);
  }

  lemma OneCallRead(c: Call, results: Results)
    ensures CallsIn(OneCallBlocks(c), results) == [Call(c.id, c.name, Some(Arguments(c)), Lookup(results, c.id))]
    ensures VisibleTexts(OneCallBlocks(c)) == [] && ThinkingTexts(OneCallBlocks(c)) == []
  {
    var use := [ToolUse(c.id, c.name, Arguments(c))];
    var result := if c.result.Some? then [ToolResult(c.id, c.result.value.text)] else [];
    ReadsJoin(use, result, results);
    hide Lookup;
    assert OneCallBlocks(c) == use + result && use[1..] == [];
  }

  lemma {:induction false} CallBlocksRead(calls: seq<Call>, results: Results)
    ensures var blocks := CallBlocks(calls);
            && CallsIn(blocks, results) == RecoveredCalls(calls, results)
            && VisibleTexts(blocks) == [] && ThinkingTexts(blocks) == []
            && (blocks == [] <==> calls == [])
  {
    if calls != [] {
      CallBlocksRead(calls[1..], results);
      ReadsJoin(OneCallBlocks(calls[0]), CallBlocks(calls[1..]), results);
      OneCallRead(calls[0], results);
      hide CallsIn, VisibleTexts, ThinkingTexts, Lookup;
    }
  }

  predicate Empty(m: Message) {
    Reasoning(m) == "" && m.content == "" && m.calls == []
  }

  function Recovered(m: Message, results: Results): Message {
    Message(m.id, m.parent, m.role, Join([Reasoning(m), m.content]), NonEmpty(Reasoning(m)),
            RecoveredCalls(m.calls, results), m.createdAt)
  }

  lemma OneText(s: string)
    ensures Join([s]) == s && (AllEmpty([s]) <==> s == "") && Join([]) == ""
  {
    assert s in [s] && [s][1..] == [] && AllEmpty([]);
    if s == "" {
      forall p | p in [s] ensures p == "" { }
    }
  }

  lemma TextBlocksRead(m: Message, results: Results)
    ensures CallsIn(TextBlocks(m), results) == []
    ensures Join(VisibleTexts(TextBlocks(m))) == Join([Reasoning(m), m.content])
    ensures Join(ThinkingTexts(TextBlocks(m))) == Reasoning(m)
    ensures Join([Reasoning(m), m.content]) == "" <==> Reasoning(m) == "" && m.content == ""
  {
    var r, c := Reasoning(m), m.content;
    var a := if r != "" then [Thinking(r)] else [];
    var b := if c != "" then [TextBlock(c)] else [];
    ReadsJoin(a, b, results);
    assert [r, c][1..] == [c];
    OneText(r);
    OneText(c);
    assert VisibleTexts(a) == (if r != "" then [r] else []) && VisibleTexts(b) == (if c != "" then [c] else []);
    assert ThinkingTexts(a) == (if r != "" then [r] else []) && ThinkingTexts(b) == [];
    assert [r] + [c] == [r, c];
    assert [r] + [] == [r];
  }

  /** One message through the format: everything but the results depends on the message alone. */
  lemma MessageThroughClaude(m: Message, results: Results)
    ensures ClaudeMessage(ToClaude(m), results) == if Empty(m) then None else Some(Recovered(m, results))
  {
    hide Join, Lookup;
    var text, calls := TextBlocks(m), CallBlocks(m.calls);
    CallBlocksRead(m.calls, results);
    ReadsJoin(text, calls, results);
    TextBlocksRead(m, results);
    assert VisibleTexts(text) + [] == VisibleTexts(text) && ThinkingTexts(text) + [] == ThinkingTexts(text);
    assert [] + RecoveredCalls(m.calls, results) == RecoveredCalls(m.calls, results);
    if text + calls == [] {
      assert text == [] && calls == [];
    }
    hide CallBlocks, CallsIn, VisibleTexts, ThinkingTexts, RecoveredCalls;
  }

  function RecoveredMessages(messages: seq<Message>, results: Results): seq<Message> {
    if messages == [] then [] else
    (if Empty(messages[0]) then [] else [Recovered(messages[0], results)]) + RecoveredMessages(messages[1..], results)
  }

  lemma {:induction false} MessagesThroughClaude(messages: seq<Message>, results: Results)
    ensures ClaudeMessages(AllToClaude(messages), results) == RecoveredMessages(messages, results)
  {
    hide ClaudeMessage, ToClaude, Recovered, Empty;
    if messages != [] {
      MessageThroughClaude(messages[0], results);
      assert AllToClaude(messages)[1..] == AllToClaude(messages[1..]);
      MessagesThroughClaude(messages[1..], results);
    }
  }

  /**
   What the Claude format promises to keep: each message that is not empty, with its id, parent, role, reasoning
   and calls; the content becomes the newline-join of reasoning and content.
   */
  function Kept(messages: seq<Message>): seq<Message> {
    if messages == [] then [] else
    var m := messages[0];
    (if Empty(m) then []
     else [Message(m.id, m.parent, m.role, Join([Reasoning(m), m.content]), NonEmpty(Reasoning(m)), KeptCalls(m.calls),
                   m.createdAt)])
    + Kept(messages[1..])
  }

  lemma {:induction false} RecoveredIsKept(calls: seq<Call>, results: Results)
    ensures RecoveredCalls(calls, results) == KeptCalls(calls) <==> RecoversAll(results, calls)
  {
    if calls != [] {
      RecoveredIsKept(calls[1..], results);
      var r, k := RecoveredCalls(calls, results), KeptCalls(calls);
      assert r[1..] == RecoveredCalls(calls[1..], results) && k[1..] == KeptCalls(calls[1..]);
      assert r == k <==> r[0] == k[0] && r[1..] == k[1..] by {
        if r[0] == k[0] && r[1..] == k[1..] { assert r == [r[0]] + r[1..] && k == [k[0]] + k[1..]; }
      }
      RecoversFirst(results, calls);
    }
  }

  lemma RecoversFirst(results: Results, calls: seq<Call>)
    requires calls != []
    ensures RecoversAll(results, calls) <==> Recovers(results, calls[0]) && RecoversAll(results, calls[1..])
  {
  }

  lemma RecoversJoin(results: Results, a: seq<Call>, b: seq<Call>)
    ensures RecoversAll(results, a + b) <==> RecoversAll(results, a) && RecoversAll(results, b)
  {
    hide Recovers;
    if RecoversAll(results, a + b) {
      forall i | 0 <= i < |a| ensures Recovers(results, a[i]) { assert a[i] == (a + b)[i]; }
      forall i | 0 <= i < |b| ensures Recovers(results, b[i]) { assert b[i] == (a + b)[|a| + i]; }
    }
  }

  lemma {:induction false} KeptIffRecovered(messages: seq<Message>, results: Results)
    ensures |RecoveredMessages(messages, results)| == |Kept(messages)|
    ensures RecoveredMessages(messages, results) == Kept(messages) <==> RecoversAll(results, AllCalls(messages))
  {
    hide Join, RecoveredCalls, KeptCalls, RecoversAll;
    if messages != [] {
      var m, rest := messages[0], messages[1..];
      KeptIffRecovered(rest, results);
      RecoversJoin(results, m.calls, AllCalls(rest));
      RecoveredIsKept(m.calls, results);
      var first := Message(m.id, m.parent, m.role, Join([Reasoning(m), m.content]), NonEmpty(Reasoning(m)),
                           KeptCalls(m.calls), m.createdAt);
      if !Empty(m) {
        var r, k := RecoveredMessages(messages, results), Kept(messages);
        assert r[0] == Recovered(m, results) && r[1..] == RecoveredMessages(rest, results);
        assert k[0] == first && k[1..] == Kept(rest);
        assert r == k <==> r[0] == k[0] && r[1..] == k[1..] by {
          if r[0] == k[0] && r[1..] == k[1..] { assert r == [r[0]] + r[1..] && k == [k[0]] + k[1..]; }
        }
      } else {
        NoCallsRecover(results);
        assert AllCalls(messages) == m.calls + AllCalls(rest);
        assert RecoveredMessages(messages, results) == RecoveredMessages(rest, results) && Kept(messages) == Kept(rest);
      }
    } else {
      NoCallsRecover(results);
    }
  }

  lemma NoCallsRecover(results: Results)
    ensures RecoversAll(results, [])
  {
  }

  /** A handoff to Claude keeps all it should exactly when calls that share an id have the same result. */
  lemma ClaudeKeepsSession(messages: seq<Message>)
    ensures FromClaude(AllToClaude(messages)) == Kept(messages) <==> SameIdsAgree(AllCalls(messages))
  {
    hide ClaudeMessages, ClaudeResults, AllToClaude, RecoveredMessages, Kept, AllCalls, CallResults, SameIdsAgree,
        RecoversAll;
    var results := CallResults(map[], AllCalls(messages));
    ClaudeResultsAreCalls(map[], messages);
    MessagesThroughClaude(messages, results);
    KeptIffRecovered(messages, results);
    MapRecoversIffAgree(AllCalls(messages));
  }

  // ---------------------------------------------------------------- Codex and back

  lemma {:induction false} CodexResultsJoin(results: Results, a: seq<Item>, b: seq<Item>)
    ensures CodexResults(results, a + b) == CodexResults(CodexResults(results, a), b)
    decreases |a|
  {
    if a == [] {
      assert a + b == b;
    } else {
      assert (a + b)[1..] == a[1..] + b;
      CodexResultsJoin(if a[0].FunctionOutput? then results[a[0].callId := a[0].output] else results, a[1..], b);
    }
  }

  lemma {:induction false} CallItemResults(results: Results, calls: seq<Call>)
    ensures CodexResults(results, CallItems(calls)) == CallResults(results, calls)
    decreases |calls|
  {
    if calls != [] {
      var c := calls[0];
      CodexResultsJoin(results, OneCallItems(c), CallItems(calls[1..]));
      if c.result.Some? { assert OneCallItems(c)[1..] == [FunctionOutput(c.id, c.result.value.text)]; }
      CallItemResults(if c.result.Some? then results[c.id := c.result.value.text] else results, calls[1..]);
    }
  }

  lemma {:induction false} NoOutputs(results: Results, items: seq<Item>)
    requires forall i :: 0 <= i < |items| ==> !items[i].FunctionOutput?
    ensures CodexResults(results, items) == results
  {
    if items != [] { NoOutputs(results, items[1..]); }
  }

  function TextItems(m: Message): seq<Item> {
    (if Reasoning(m) != "" then [ReasoningItem(Reasoning(m))] else [])
    + (if m.content != "" then [MessageItem(m.role, [m.content])] else [])
  }

  lemma {:induction false} CodexResultsAreCalls(results: Results, messages: seq<Message>)
    ensures CodexResults(results, AllToCodex(messages)) == CallResults(results, AllCalls(messages))
    decreases |messages|
  {
    if messages != [] {
      var m, rest := messages[0], messages[1..];
      assert ToCodex(m) == TextItems(m) + CallItems(m.calls);
      CodexResultsJoin(results, ToCodex(m), AllToCodex(rest));
      CodexResultsJoin(results, TextItems(m), CallItems(m.calls));
      NoOutputs(results, TextItems(m));
      CallItemResults(results, m.calls);
      CallResultsJoin(results, m.calls, AllCalls(rest));
      CodexResultsAreCalls(CallResults(results, m.calls), rest);
    }
  }

  /** What one item adds to the trace of the parsed session. */
  function ItemTrace(item: Item, results: Results): seq<Said> {
    match item
    case ReasoningItem(text) => if text == "" then [] else [Thought(text)]
    case MessageItem(role, texts) => if Join(texts) == "" then [] else [Spoke(role, Join(texts))]
    case FunctionCall(callId, name, arguments) =>
      [Called(callId, name, arguments, Stringified(Lookup(results, callId)))]
    case FunctionOutput(_, _) => []
  }

  function ItemsTrace(items: seq<Item>, results: Results): seq<Said> {
    if items == [] then [] else ItemTrace(items[0], results) + ItemsTrace(items[1..], results)
  }

  lemma {:induction false} ItemsTraceJoin(a: seq<Item>, b: seq<Item>, results: Results)
    ensures ItemsTrace(a + b, results) == ItemsTrace(a, results) + ItemsTrace(b, results)
  {
    hide ItemTrace;
    if a == [] {
      assert a + b == b;
    } else {
      assert (a + b)[1..] == a[1..] + b;
      ItemsTraceJoin(a[1..], b, results);
    }
  }

  lemma RowTrace(row: CodexRow, results: Results, madeUp: string)
    ensures Trace(Listed(CodexMessage(row, results, madeUp))) == ItemTrace(row.item, results)
  {
    hide Join, Lookup;
    var m := CodexMessage(row, results, madeUp);
    if m.Some? {
      assert [m.value][1..] == [];
      assert MessageTrace(m.value) + [] == MessageTrace(m.value);
      if row.item.FunctionCall? {
        var c := m.value.calls[0];
        assert m.value.calls == [c] && [c][1..] == [];
        assert CallTrace([c]) ==
               [Called(c.id, c.name, row.item.arguments, Stringified(c.result))] + CallTrace([c][1..]);
        assert MessageTrace(m.value) == CallTrace([c]);
      }
    }
  }

  lemma {:induction false} TraceJoin(a: seq<Message>, b: seq<Message>)
    ensures Trace(a + b) == Trace(a) + Trace(b)
  {
    hide MessageTrace;
    if a == [] {
      assert a + b == b;
    } else {
      assert (a + b)[1..] == a[1..] + b;
      TraceJoin(a[1..], b);
    }
  }

  lemma {:induction false} ParsedTrace(rows: seq<CodexRow>, results: Results, madeUp: string)
    ensures Trace(CodexMessages(rows, results, madeUp)) == ItemsTrace(Items(rows), results)
  {
    hide CodexMessage, ItemTrace, MessageTrace;
    if rows != [] {
      RowTrace(rows[0], results, madeUp);
      TraceJoin(Listed(CodexMessage(rows[0], results, madeUp)), CodexMessages(rows[1..], results, madeUp));
      assert Items(rows)[1..] == Items(rows[1..]);
      ParsedTrace(rows[1..], results, madeUp);
    }
  }

  function CallTraceWith(calls: seq<Call>, results: Results): (t: seq<Said>)
    ensures |t| == |calls|
  {
    if calls == [] then [] else
    var c := calls[0];
    [Called(c.id, c.name, Arguments(c).text, Stringified(Lookup(results, c.id)))] + CallTraceWith(calls[1..], results)
  }

  lemma OneCallTrace(c: Call, results: Results)
    ensures ItemsTrace(OneCallItems(c), results) ==
            [Called(c.id, c.name, Arguments(c).text, Stringified(Lookup(results, c.id)))]
  {
    hide Lookup;
    var call := [FunctionCall(c.id, c.name, Arguments(c).text)];
    var output := if c.result.Some? then [FunctionOutput(c.id, c.result.value.text)] else [];
    ItemsTraceJoin(call, output, results);
    assert OneCallItems(c) == call + output && call[1..] == [];
  }

  lemma {:induction false} CallItemsTrace(calls: seq<Call>, results: Results)
    ensures ItemsTrace(CallItems(calls), results) == CallTraceWith(calls, results)
  {
    if calls != [] {
      CallItemsTrace(calls[1..], results);
      ItemsTraceJoin(OneCallItems(calls[0]), CallItems(calls[1..]), results);
      OneCallTrace(calls[0], results);
      hide Lookup, ItemsTrace, OneCallItems;
    }
  }

  function TextTrace(m: Message): seq<Said> {
    (if Reasoning(m) != "" then [Thought(Reasoning(m))] else [])
    + (if m.content != "" then [Spoke(m.role, m.content)] else [])
  }

  function TraceWith(messages: seq<Message>, results: Results): seq<Said> {
    if messages == [] then [] else
    TextTrace(messages[0]) + CallTraceWith(messages[0].calls, results) + TraceWith(messages[1..], results)
  }

  lemma TextItemsTrace(m: Message, results: Results)
    ensures ItemsTrace(TextItems(m), results) == TextTrace(m)
  {
    var a := if Reasoning(m) != "" then [ReasoningItem(Reasoning(m))] else [];
    var b := if m.content != "" then [MessageItem(m.role, [m.content])] else [];
    ItemsTraceJoin(a, b, results);
    OneText(m.content);
    hide Join;
    assert ItemsTrace(a, results) == if Reasoning(m) != "" then [Thought(Reasoning(m))] else [];
    assert ItemsTrace(b, results) == if m.content != "" then [Spoke(m.role, m.content)] else [];
  }

  lemma {:induction false} SerializedTrace(messages: seq<Message>, results: Results)
    ensures ItemsTrace(AllToCodex(messages), results) == TraceWith(messages, results)
  {
    hide CallItems, TextTrace, CallTraceWith;
    if messages != [] {
      var m, rest := messages[0], messages[1..];
      assert ToCodex(m) == TextItems(m) + CallItems(m.calls);
      ItemsTraceJoin(ToCodex(m), AllToCodex(rest), results);
      ItemsTraceJoin(TextItems(m), CallItems(m.calls), results);
      TextItemsTrace(m, results);
      CallItemsTrace(m.calls, results);
      SerializedTrace(rest, results);
    }
  }

  lemma {:induction false} CallTracesAgree(calls: seq<Call>, results: Results)
    ensures |CallTrace(calls)| == |calls|
    ensures CallTraceWith(calls, results) == CallTrace(calls) <==> RecoversAll(results, calls)
  {
    if calls != [] {
      CallTracesAgree(calls[1..], results);
      var t, u := CallTraceWith(calls, results), CallTrace(calls);
      assert t[1..] == CallTraceWith(calls[1..], results) && u[1..] == CallTrace(calls[1..]);
      assert t == u <==> t[0] == u[0] && t[1..] == u[1..] by {
        if t[0] == u[0] && t[1..] == u[1..] { assert t == [t[0]] + t[1..] && u == [u[0]] + u[1..]; }
      }
      RecoversFirst(results, calls);
    }
  }

  lemma SplitEqual<T>(a: seq<T>, b: seq<T>, c: seq<T>, d: seq<T>)
    requires |a| == |c|
    ensures a + b == c + d <==> a == c && b == d
  {
    if a + b == c + d {
      assert (a + b)[..|a|] == a && (c + d)[..|c|] == c;
      assert (a + b)[|a|..] == b && (c + d)[|c|..] == d;
    }
  }

  lemma {:induction false} TracesAgree(messages: seq<Message>, results: Results)
    ensures |TraceWith(messages, results)| == |Trace(messages)|
    ensures TraceWith(messages, results) == Trace(messages) <==> RecoversAll(results, AllCalls(messages))
  {
    hide CallTraceWith, CallTrace, RecoversAll;
    if messages != [] {
      var m, rest := messages[0], messages[1..];
      TracesAgree(rest, results);
      CallTracesAgree(m.calls, results);
      RecoversJoin(results, m.calls, AllCalls(rest));
      var calls, own := CallTraceWith(m.calls, results), CallTrace(m.calls);
      assert MessageTrace(m) == TextTrace(m) + own;
      SplitEqual(TextTrace(m) + calls, TraceWith(rest, results), TextTrace(m) + own, Trace(rest));
      SplitEqual(TextTrace(m), calls, TextTrace(m), own);
    } else {
      NoCallsRecover(results);
    }
  }

  /**
   A handoff to Codex keeps the flattened trace of the session, arguments and results up to JSON.stringify,
   exactly when calls that share an id have the same result. The ids of the rows do not matter.
   */
  lemma CodexKeepsTrace(messages: seq<Message>, rows: seq<CodexRow>, now: string)
    requires Items(rows) == AllToCodex(messages)
    ensures Trace(FromCodex(rows, now)) == Trace(messages) <==> SameIdsAgree(AllCalls(messages))
  {
    hide CodexMessages, CodexResults, AllToCodex, AllCalls, CallResults, SameIdsAgree, RecoversAll, Trace, TraceWith,
        ItemsTrace;
    var results := CallResults(map[], AllCalls(messages));
    CodexResultsAreCalls(map[], messages);
    ParsedTrace(rows, results, now);
    SerializedTrace(messages, results);
    TracesAgree(messages, results);
    MapRecoversIffAgree(AllCalls(messages));
  }

  /** Distinct call ids are enough, for both formats. */
  lemma DistinctIdsAgree(calls: seq<Call>)
    requires forall i, j :: 0 <= i < j < |calls| ==> calls[i].id != calls[j].id
    ensures SameIdsAgree(calls)
  {
  }

  /** One id used twice: the earlier call comes back with the later one's result. */
  lemma ReusedIdChangesResult(m: Message, name: string)
    requires m.calls == [Call("c", name, None, Some(Text("first"))), Call("c", name, None, Some(Text("second")))]
    ensures FromClaude(AllToClaude([m])) != Kept([m])
  {
    assert [m][1..] == [] && AllCalls([m]) == m.calls;
    ClaudeKeepsSession([m]);
    assert m.calls[0].id == m.calls[1].id;
  }
}

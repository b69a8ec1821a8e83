/** The research orchestrator: one LLM drives a tool-use conversation over
    the NHANES metadata tools, every LLM call goes through the rate
    limiter, and the tool results of the conversation are finally mined
    for data files, variables and survey cycles. The LLM, the tool server,
    `json.dumps` and `json.loads` are oracles given as function parameters. */
module Orchestrator {
  import opened Common
  import Sorting
  import RateLimiting

  // ---------------------------------------------------------------------
  // Conversation values

  /** An item of a message's content list. `NonDict` is any item that is
      not a dictionary (such as an SDK object); `OtherDict` a dictionary of
      another type, known only by its serialisation. */
  datatype Block =
    | TextBlock(text: string)
    | ToolUse(id: string, name: string, input: string)
    | ToolResult(toolUseId: string, content: string, isError: bool)
    | OtherDict(body: string)
    | NonDict

  /** Message content is a string or a list of items. */
  datatype Content = Text(text: string) | Blocks(blocks: seq<Block>)

  datatype Message = Message(role: string, content: Content)

  /** What the LLM call returns: the assistant message, the stop reason and
      the total token usage when it is reported. */
  datatype LlmResponse = LlmResponse(message: Message, stopReason: Option<string>, totalTokens: Option<int>)

  /** `message.get("content", [])` iterated for dictionaries: a string
      content holds none. */
  function BlocksOf(m: Message): seq<Block> {
    if m.content.Blocks? then m.content.blocks else []
  }

  // ---------------------------------------------------------------------
  // Tool format conversion

  datatype McpTool = McpTool(name: string, description: string, inputSchema: string)

  datatype LlmTool = LlmTool(name: string, description: string, inputSchema: string)

  /** The LLM-format tool list: same length, same order, `inputSchema`
      carried over as `input_schema`. */
  function LlmTools(tools: seq<McpTool>): (r: seq<LlmTool>)
    ensures |r| == |tools|
    ensures forall k :: 0 <= k < |r| ==>
      r[k].name == tools[k].name && r[k].description == tools[k].description
      && r[k].inputSchema == tools[k].inputSchema
  {
    if tools == [] then []
    else LlmTools(tools[..|tools| - 1]) + [LlmTool(tools[|tools| - 1].name, tools[|tools| - 1].description, tools[|tools| - 1].inputSchema)]
  }

  method ConvertMcpToolsToLlmFormat(tools: seq<McpTool>) returns (converted: seq<LlmTool>)
    ensures converted == LlmTools(tools)
  {
    converted := [];
    for i := 0 to |tools|
      invariant converted == LlmTools(tools[..i])
    {
      assert tools[..i + 1][..i] == tools[..i];
      converted := converted + [LlmTool(tools[i].name, tools[i].description, tools[i].inputSchema)];
    }
    assert tools[..|tools|] == tools;
  }

  function McpToolOf(t: LlmTool): McpTool {
    McpTool(t.name, t.description, t.inputSchema)
  }

  /** The conversion loses nothing: mapping each tool back gives the input. */
  lemma LlmToolsRoundTrip(tools: seq<McpTool>)
    ensures forall k :: 0 <= k < |tools| ==> McpToolOf(LlmTools(tools)[k]) == tools[k]
  {
  }

  // ---------------------------------------------------------------------
  // Token estimate

  /** The serialisation of the dictionary items of a content list. */
  function DumpBlocks(blocks: seq<Block>, dumps: Block -> string): string {
    if blocks == [] then ""
    else
      var last := blocks[|blocks| - 1];
      DumpBlocks(blocks[..|blocks| - 1], dumps) + (if last.NonDict? then "" else dumps(last))
  }

  function ContentText(c: Content, dumps: Block -> string): string {
    match c
    case Text(s) => s
    case Blocks(bs) => DumpBlocks(bs, dumps)
  }

  /** The text whose length estimates the tokens: the system prompt, then
      every message's content. */
  function EstimateText(messages: seq<Message>, systemPrompt: string, dumps: Block -> string): (r: string)
    ensures systemPrompt <= r
  {
    if messages == [] then systemPrompt
    else EstimateText(messages[..|messages| - 1], systemPrompt, dumps) + ContentText(messages[|messages| - 1].content, dumps)
  }

  method EstimateTokens(messages: seq<Message>, systemPrompt: string, dumps: Block -> string) returns (n: int)
    ensures n == |EstimateText(messages, systemPrompt, dumps)| / 4
    ensures n >= |systemPrompt| / 4
  {
    var text := systemPrompt;
    for i := 0 to |messages|
      invariant text == EstimateText(messages[..i], systemPrompt, dumps)
    {
      assert messages[..i + 1][..i] == messages[..i];
      var content := messages[i].content;
      if content.Text? {
        text := text + content.text;
      } else {
        ghost var before := text;
        var items := content.blocks;
        for j := 0 to |items|
          invariant text == before + DumpBlocks(items[..j], dumps)
        {
          assert items[..j + 1][..j] == items[..j];
          if !items[j].NonDict? {
            text := text + dumps(items[j]);
          }
        }
        assert items[..|items|] == items;
      }
    }
    assert messages[..|messages|] == messages;
    n := |text| / 4;
  }

  /** The estimate never drops as the conversation grows. */
  lemma {:induction false} EstimateGrows(messages: seq<Message>, k: nat, systemPrompt: string, dumps: Block -> string)
    requires k <= |messages|
    ensures EstimateText(messages[..k], systemPrompt, dumps) <= EstimateText(messages, systemPrompt, dumps)
    ensures |EstimateText(messages[..k], systemPrompt, dumps)| / 4 <= |EstimateText(messages, systemPrompt, dumps)| / 4
    decreases |messages| - k
  {
    if k < |messages| {
      EstimateGrows(messages, k + 1, systemPrompt, dumps);
      assert messages[..k + 1][..k] == messages[..k];
    } else {
      assert messages[..k] == messages;
    }
  }

  // ---------------------------------------------------------------------
  // Tool execution

  /** The tool_use items of a content list, in order. */
  function ToolUses(content: seq<Block>): (r: seq<Block>)
    ensures |r| <= |content|
    ensures forall k :: 0 <= k < |r| ==> r[k].ToolUse?
  {
    if content == [] then []
    else
      var last := content[|content| - 1];
      ToolUses(content[..|content| - 1]) + (if last.ToolUse? then [last] else [])
  }

  /** The tool_use items are exactly the items of that type. */
  lemma {:induction false} ToolUsesMembers(content: seq<Block>)
    ensures forall b :: b in ToolUses(content) <==> b in content && b.ToolUse?
    decreases |content|
  {
    if content != [] {
      var init := content[..|content| - 1];
      ToolUsesMembers(init);
      assert content == init + [content[|content| - 1]];
    }
  }

  /** A JSON object with a single "error" member (string escaping is not
      modelled). */
  function ErrorJson(message: string): string {
    "{\"error\": \"" + message + "\"}"
  }

  /** The tool_result answering one tool_use: the server's answer for an
      `nhanes_` tool, an error payload flagged `is_error` when the call
      raised, and an unflagged error payload for any other tool name. */
  function ToolResultFor(use: Block, hasClient: bool, call: (string, string) -> Result<string, string>): (r: Block)
    requires use.ToolUse?
    ensures r.ToolResult? && r.toolUseId == use.id
    ensures r.isError <==> hasClient && StartsWith(use.name, "nhanes_") && call(use.name, use.input).Err?
    ensures !(hasClient && StartsWith(use.name, "nhanes_")) ==> r.content == ErrorJson("Unknown tool: " + use.name)
  {
    if hasClient && StartsWith(use.name, "nhanes_") then
      match call(use.name, use.input)
      case Ok(payload) => ToolResult(use.id, payload, false)
      case Err(e) => ToolResult(use.id, ErrorJson(e), true)
    else ToolResult(use.id, ErrorJson("Unknown tool: " + use.name), false)
  }

  function ToolResultsFor(uses: seq<Block>, hasClient: bool, call: (string, string) -> Result<string, string>): (r: seq<Block>)
    requires forall k :: 0 <= k < |uses| ==> uses[k].ToolUse?
    ensures |r| == |uses|
    ensures forall k :: 0 <= k < |r| ==> r[k] == ToolResultFor(uses[k], hasClient, call)
  {
    if uses == [] then []
    else ToolResultsFor(uses[..|uses| - 1], hasClient, call) + [ToolResultFor(uses[|uses| - 1], hasClient, call)]
  }

  method ExecuteTools(content: seq<Block>, hasClient: bool, call: (string, string) -> Result<string, string>)
    returns (results: seq<Block>)
    ensures results == ToolResultsFor(ToolUses(content), hasClient, call)
  {
    results := [];
    for i := 0 to |content|
      invariant results == ToolResultsFor(ToolUses(content[..i]), hasClient, call)
    {
      ToolResultsStep(content, i, hasClient, call);
      var block := content[i];
      if block.ToolUse? {
        var result := ExecuteTool(block, hasClient, call);
        results := results + [result];
      }
    }
    assert content[..|content|] == content;
  }

  /** The body of the loop for one tool_use: the call and its exception
      handler. */
  method ExecuteTool(block: Block, hasClient: bool, call: (string, string) -> Result<string, string>) returns (result: Block)
    requires block.ToolUse?
    ensures result == ToolResultFor(block, hasClient, call)
  {
    if hasClient && StartsWith(block.name, "nhanes_") {
      var outcome := call(block.name, block.input);
      if outcome.Ok? {
        result := ToolResult(block.id, outcome.value, false);
      } else {
        result := ToolResult(block.id, ErrorJson(outcome.error), true);
      }
    } else {
      result := ToolResult(block.id, ErrorJson("Unknown tool: " + block.name), false);
    }
  }

  lemma {:induction false} ToolUsesStep(content: seq<Block>, i: nat)
    requires i < |content|
    ensures ToolUses(content[..i + 1]) == ToolUses(content[..i]) + (if content[i].ToolUse? then [content[i]] else [])
  {
    assert content[..i + 1][..i] == content[..i];
  }

  /** One more block answers one more tool_use exactly when it is one. */
  lemma ToolResultsStep(content: seq<Block>, i: nat, hasClient: bool, call: (string, string) -> Result<string, string>)
    requires i < |content|
    ensures ToolResultsFor(ToolUses(content[..i + 1]), hasClient, call)
            == ToolResultsFor(ToolUses(content[..i]), hasClient, call)
               + (if content[i].ToolUse? then [ToolResultFor(content[i], hasClient, call)] else [])
  {
    ToolUsesStep(content, i);
    if content[i].ToolUse? {
      ToolResultsForAppend(ToolUses(content[..i]), content[i], hasClient, call);
    } else {
      assert ToolUses(content[..i]) + [] == ToolUses(content[..i]);
    }
  }

  lemma {:induction false} ToolResultsForAppend(uses: seq<Block>, use: Block, hasClient: bool, call: (string, string) -> Result<string, string>)
    requires forall k :: 0 <= k < |uses| ==> uses[k].ToolUse?
    requires use.ToolUse?
    ensures ToolResultsFor(uses + [use], hasClient, call) == ToolResultsFor(uses, hasClient, call) + [ToolResultFor(use, hasClient, call)]
  {
    assert (uses + [use])[..|uses|] == uses;
  }

  /** One tool_result per tool_use, in order, answering the same id. */
  lemma ToolResultsMatchUses(content: seq<Block>, hasClient: bool, call: (string, string) -> Result<string, string>)
    ensures var uses := ToolUses(content);
      var results := ToolResultsFor(uses, hasClient, call);
      && |results| == |uses|
      && forall k :: 0 <= k < |results| ==> results[k].ToolResult? && results[k].toolUseId == uses[k].id
  {
  }

  /** No result is produced exactly when the content has no tool_use item. */
  lemma {:induction false} NoResultsWithoutToolUse(content: seq<Block>, hasClient: bool, call: (string, string) -> Result<string, string>)
    ensures ToolResultsFor(ToolUses(content), hasClient, call) == [] <==> forall b :: b in content ==> !b.ToolUse?
  {
    var uses := ToolUses(content);
    ToolUsesMembers(content);
    if uses != [] {
      assert uses[0] in uses;
    }
  }

  // ---------------------------------------------------------------------
  // Result extraction

  /** A parsed JSON dictionary: its string members, and the list under
      "cycles" (empty when missing or null). */
  datatype Record = Record(fields: map<string, string>, cycles: seq<string>)

  /** What `json.loads` gives for a tool result: a list of dictionaries, a
      dictionary, or anything else. */
  datatype ToolData = RecordList(items: seq<Record>) | SingleRecord(rec: Record) | OtherJson

  /** A non-empty list whose first item has "file_name" is a list of files. */
  function FilesOf(d: ToolData): seq<Record> {
    if d.RecordList? && d.items != [] && "file_name" in d.items[0].fields then d.items else []
  }

  /** A non-empty list whose first item has "variable_name", or a single
      dictionary with "variable_name", holds variables. */
  function VariablesOf(d: ToolData): seq<Record> {
    if d.RecordList? && d.items != [] && "variable_name" in d.items[0].fields then d.items
    else if d.SingleRecord? && "variable_name" in d.rec.fields then [d.rec]
    else []
  }

  /** The cycles of a single variable dictionary. */
  function CyclesOf(d: ToolData): seq<string> {
    if d.SingleRecord? && "variable_name" in d.rec.fields then d.rec.cycles else []
  }

  /** The parsed payloads of the tool_result items of a content list; a
      payload that does not parse is skipped. */
  function BlockData(blocks: seq<Block>, parse: string -> Option<ToolData>): seq<ToolData> {
    if blocks == [] then []
    else
      var last := blocks[|blocks| - 1];
      BlockData(blocks[..|blocks| - 1], parse)
        + (if last.ToolResult? && parse(last.content).Some? then [parse(last.content).value] else [])
  }

  function HistoryData(history: seq<Message>, parse: string -> Option<ToolData>): seq<ToolData> {
    if history == [] then []
    else HistoryData(history[..|history| - 1], parse) + BlockData(BlocksOf(history[|history| - 1]), parse)
  }

  predicate Distinct<T(==)>(s: seq<T>) {
    forall i, j :: 0 <= i < j < |s| ==> s[i] != s[j]
  }

  /** Appends, in order, each item not already present. */
  function AppendNew<T(==)>(acc: seq<T>, items: seq<T>): seq<T>
    decreases |items|
  {
    if items == [] then acc
    else AppendNew(if items[0] in acc then acc else acc + [items[0]], items[1..])
  }

  /** The input list is kept as a prefix, exactly the new items are added,
      and no repeat is introduced. */
  lemma {:induction false} AppendNewProperties<T>(acc: seq<T>, items: seq<T>)
    ensures acc <= AppendNew(acc, items)
    ensures forall x :: x in AppendNew(acc, items) <==> x in acc || x in items
    ensures Distinct(acc) ==> Distinct(AppendNew(acc, items))
    decreases |items|
  {
    if items != [] {
      var next := if items[0] in acc then acc else acc + [items[0]];
      AppendNewProperties(next, items[1..]);
      assert forall x :: x in next <==> x in acc || x == items[0];
      assert items == [items[0]] + items[1..];
    }
  }

  method AddNew<T(==)>(acc: seq<T>, items: seq<T>) returns (out: seq<T>)
    ensures out == AppendNew(acc, items)
  {
    out := acc;
    for i := 0 to |items|
      invariant AppendNew(out, items[i..]) == AppendNew(acc, items)
    {
      assert items[i..][1..] == items[i + 1..];
      if items[i] !in out {
        out := out + [items[i]];
      }
    }
  }

  /** Some parsed payload contributes `x` through `extract`. */
  predicate FromData<T(==)>(datas: seq<ToolData>, extract: ToolData -> seq<T>, x: T) {
    exists k :: 0 <= k < |datas| && x in extract(datas[k])
  }

  datatype ResearchResult = ResearchResult(
    hypothesis: string,
    feasible: bool,
    reasoning: Content,
    dataFiles: seq<Record>,
    variables: seq<Record>,
    recommendedCycles: seq<string>,
    conversationHistory: seq<Message>)

  /** The files, variables and cycles gathered so far. */
  datatype Found = Found(files: seq<Record>, vars: seq<Record>, cycles: seq<string>)

  /** The lists after one parsed payload: its new files, variables and
      cycles appended. */
  function AddData(f: Found, d: ToolData): Found {
    Found(AppendNew(f.files, FilesOf(d)), AppendNew(f.vars, VariablesOf(d)), AppendNew(f.cycles, CyclesOf(d)))
  }

  /** The lists after every payload, in order. */
  function Accumulate(f: Found, datas: seq<ToolData>): Found {
    if datas == [] then f else AddData(Accumulate(f, datas[..|datas| - 1]), datas[|datas| - 1])
  }

  /** Gathering keeps the lists as prefixes, adds exactly the items of the
      payloads, and adds no repeat. */
  lemma {:induction false} AccumulateProperties(f: Found, datas: seq<ToolData>)
    ensures var g := Accumulate(f, datas);
      && f.files <= g.files && f.vars <= g.vars && f.cycles <= g.cycles
      && (forall x :: x in g.files <==> x in f.files || FromData(datas, FilesOf, x))
      && (forall x :: x in g.vars <==> x in f.vars || FromData(datas, VariablesOf, x))
      && (forall x :: x in g.cycles <==> x in f.cycles || FromData(datas, CyclesOf, x))
      && (Distinct(f.files) ==> Distinct(g.files))
      && (Distinct(f.vars) ==> Distinct(g.vars))
      && (Distinct(f.cycles) ==> Distinct(g.cycles))
    decreases |datas|
  {
    if datas != [] {
      var init := datas[..|datas| - 1];
      var d := datas[|datas| - 1];
      AccumulateProperties(f, init);
      assert datas == init + [d];
      FromDataAppend(init, d, FilesOf);
      FromDataAppend(init, d, VariablesOf);
      FromDataAppend(init, d, CyclesOf);
      var g := Accumulate(f, init);
      AppendNewProperties(g.files, FilesOf(d));
      AppendNewProperties(g.vars, VariablesOf(d));
      AppendNewProperties(g.cycles, CyclesOf(d));
    }
  }

  /** Gathers the payloads of one message's content list. */
  method ExtractFromBlocks(f: Found, blocks: seq<Block>, parse: string -> Option<ToolData>) returns (g: Found)
    ensures g == Accumulate(f, BlockData(blocks, parse))
  {
    g := f;
    for j := 0 to |blocks|
      invariant g == Accumulate(f, BlockData(blocks[..j], parse))
    {
      BlockDataStep(f, blocks, j, parse);
      var block := blocks[j];
      if block.ToolResult? {
        var data := parse(block.content);
        if data.Some? {
          var d := data.value;
          var files := AddNew(g.files, FilesOf(d));
          var vars := AddNew(g.vars, VariablesOf(d));
          var cycles := AddNew(g.cycles, CyclesOf(d));
          g := Found(files, vars, cycles);
        }
      }
    }
    assert blocks[..|blocks|] == blocks;
  }

  lemma {:induction false} BlockDataStep(f: Found, blocks: seq<Block>, j: nat, parse: string -> Option<ToolData>)
    requires j < |blocks|
    ensures var b := blocks[j];
      Accumulate(f, BlockData(blocks[..j + 1], parse))
        == if b.ToolResult? && parse(b.content).Some?
           then AddData(Accumulate(f, BlockData(blocks[..j], parse)), parse(b.content).value)
           else Accumulate(f, BlockData(blocks[..j], parse))
  {
    assert blocks[..j + 1][..j] == blocks[..j];
    var b := blocks[j];
    var before := BlockData(blocks[..j], parse);
    if b.ToolResult? && parse(b.content).Some? {
      var d := parse(b.content).value;
      assert BlockData(blocks[..j + 1], parse) == before + [d];
      assert (before + [d])[..|before|] == before;
    } else {
      assert BlockData(blocks[..j + 1], parse) == before;
    }
  }

  lemma {:induction false} AccumulateAppend(f: Found, a: seq<ToolData>, b: seq<ToolData>)
    ensures Accumulate(f, a + b) == Accumulate(Accumulate(f, a), b)
    decreases |b|
  {
    if b == [] {
      assert a + b == a;
    } else {
      AccumulateAppend(f, a, b[..|b| - 1]);
      assert (a + b)[..|a + b| - 1] == a + b[..|b| - 1];
    }
  }

  /** `_extract_research_results`: every file, variable and cycle of the
      tool results is added once, nothing already present is added again,
      the existing lists are kept as prefixes (before the cycles are
      sorted), and the cycles end up sorted newest first. */
  method ExtractResearchResults(result: ResearchResult, parse: string -> Option<ToolData>) returns (out: ResearchResult)
    ensures out == result.(dataFiles := out.dataFiles, variables := out.variables, recommendedCycles := out.recommendedCycles)
    ensures result.dataFiles <= out.dataFiles && result.variables <= out.variables
    ensures forall x :: x in out.dataFiles <==>
      x in result.dataFiles || FromData(HistoryData(result.conversationHistory, parse), FilesOf, x)
    ensures forall x :: x in out.variables <==>
      x in result.variables || FromData(HistoryData(result.conversationHistory, parse), VariablesOf, x)
    ensures forall x :: x in out.recommendedCycles <==>
      x in result.recommendedCycles || FromData(HistoryData(result.conversationHistory, parse), CyclesOf, x)
    ensures Distinct(result.dataFiles) ==> Distinct(out.dataFiles)
    ensures Distinct(result.variables) ==> Distinct(out.variables)
    ensures Distinct(result.recommendedCycles) ==> Distinct(out.recommendedCycles)
    ensures forall i, j :: 0 <= i < j < |out.recommendedCycles| ==>
      !Sorting.LexLess(out.recommendedCycles[i], out.recommendedCycles[j])
  {
    var history := result.conversationHistory;
    var start := Found(result.dataFiles, result.variables, result.recommendedCycles);
    var found := start;
    for i := 0 to |history|
      invariant found == Accumulate(start, HistoryData(history[..i], parse))
    {
      HistoryDataStep(start, history, i, parse);
      var content := history[i].content;
      if content.Blocks? {
        found := ExtractFromBlocks(found, content.blocks, parse);
      }
    }
    assert history[..|history|] == history;
    var cycles := Sorting.SortStringsDesc(found.cycles);
    out := result.(dataFiles := found.files, variables := found.vars, recommendedCycles := cycles);
    ExtractedProperties(result, found, out, parse);
  }

  lemma {:induction false} HistoryDataStep(start: Found, history: seq<Message>, i: nat, parse: string -> Option<ToolData>)
    requires i < |history|
    ensures Accumulate(start, HistoryData(history[..i + 1], parse))
      == Accumulate(Accumulate(start, HistoryData(history[..i], parse)), BlockData(BlocksOf(history[i]), parse))
  {
    assert history[..i + 1][..i] == history[..i];
    AccumulateAppend(start, HistoryData(history[..i], parse), BlockData(BlocksOf(history[i]), parse));
  }

  lemma {:induction false} ExtractedProperties(result: ResearchResult, found: Found, out: ResearchResult, parse: string -> Option<ToolData>)
    requires found == Accumulate(Found(result.dataFiles, result.variables, result.recommendedCycles),
      HistoryData(result.conversationHistory, parse))
    requires out.dataFiles == found.files && out.variables == found.vars
    requires multiset(out.recommendedCycles) == multiset(found.cycles)
    ensures result.dataFiles <= out.dataFiles && result.variables <= out.variables
    ensures forall x :: x in out.dataFiles <==>
      x in result.dataFiles || FromData(HistoryData(result.conversationHistory, parse), FilesOf, x)
    ensures forall x :: x in out.variables <==>
      x in result.variables || FromData(HistoryData(result.conversationHistory, parse), VariablesOf, x)
    ensures forall x :: x in out.recommendedCycles <==>
      x in result.recommendedCycles || FromData(HistoryData(result.conversationHistory, parse), CyclesOf, x)
    ensures Distinct(result.dataFiles) ==> Distinct(out.dataFiles)
    ensures Distinct(result.variables) ==> Distinct(out.variables)
    ensures Distinct(result.recommendedCycles) ==> Distinct(out.recommendedCycles)
  {
    AccumulateProperties(Found(result.dataFiles, result.variables, result.recommendedCycles),
      HistoryData(result.conversationHistory, parse));
    SameElements(found.cycles, out.recommendedCycles);
  }

  lemma {:induction false} FromDataAppend<T>(datas: seq<ToolData>, d: ToolData, extract: ToolData -> seq<T>)
    ensures forall x :: FromData(datas + [d], extract, x) <==> FromData(datas, extract, x) || x in extract(d)
  {
    forall x ensures FromData(datas + [d], extract, x) <==> FromData(datas, extract, x) || x in extract(d) {
      if FromData(datas, extract, x) {
        var k :| 0 <= k < |datas| && x in extract(datas[k]);
        assert (datas + [d])[k] == datas[k];
      }
      if x in extract(d) {
        assert (datas + [d])[|datas|] == d;
      }
    }
  }

  /** Two orderings of one multiset have the same elements, and one is
      free of repeats exactly when the other is. */
  lemma {:induction false} SameElements<T>(a: seq<T>, b: seq<T>)
    requires multiset(a) == multiset(b)
    ensures forall x :: x in a <==> x in b
    ensures Distinct(a) ==> Distinct(b)
  {
    forall x ensures x in a <==> x in b {
      assert x in a <==> x in multiset(a);
      assert x in b <==> x in multiset(b);
    }
    if Distinct(a) && !Distinct(b) {
      var i, j :| 0 <= i < j < |b| && b[i] == b[j];
      DistinctCount(a, b[i]);
      MultisetCountTwo(b, i, j);
      assert false;
    }
  }

  lemma {:induction false} DistinctCount<T>(s: seq<T>, x: T)
    requires Distinct(s)
    ensures multiset(s)[x] <= 1
    decreases |s|
  {
    if s != [] {
      DistinctCount(s[1..], x);
      assert s == [s[0]] + s[1..];
      if s[0] == x {
        assert x !in s[1..];
      }
    }
  }

  lemma {:induction false} MultisetCountTwo<T>(s: seq<T>, i: nat, j: nat)
    requires i < j < |s| && s[i] == s[j]
    ensures multiset(s)[s[i]] >= 2
  {
    assert s == s[..i] + [s[i]] + s[i + 1..j] + [s[j]] + s[j + 1..];
  }

  // ---------------------------------------------------------------------
  // Provider selection

  datatype Provider = Anthropic | OpenAI

  /** The Anthropic key wins when it is set; the OpenAI key is the
      fallback; with neither the orchestrator cannot be built. An unset key
      is the empty string. */
  function SelectProvider(anthropicKey: string, openaiKey: string): (r: Result<Provider, string>)
    ensures r.Err? <==> anthropicKey == "" && openaiKey == ""
    ensures r == Ok(Anthropic) <==> anthropicKey != ""
    ensures r == Ok(OpenAI) <==> anthropicKey == "" && openaiKey != ""
  {
    if anthropicKey != "" then Ok(Anthropic)
    else if openaiKey != "" then Ok(OpenAI)
    else Err("No LLM API key configured")
  }

  /** Token and request budgets per minute for each provider. */
  function TokenBudget(p: Provider): int {
    match p
    case Anthropic => 45000
    case OpenAI => 30000
  }

  function RequestBudget(p: Provider): int {
    match p
    case Anthropic => 50
    case OpenAI => 500
  }

  // ---------------------------------------------------------------------
  // The conversation

  /** The services the loop calls out to: the LLM (given the provider,
      system prompt, tools and messages), the tool server, and the JSON
      serialiser and parser. */
  datatype Services = Services(
    llm: (Provider, string, seq<LlmTool>, seq<Message>) -> LlmResponse,
    call: (string, string) -> Result<string, string>,
    dumps: Block -> string,
    parse: string -> Option<ToolData>)

  /** One turn of the conversation: the token estimate and the tokens
      recorded afterwards, the instant the limiter admitted the call, the
      LLM's answer and the tool results sent back. */
  datatype Turn = Turn(estimated: int, actual: int, stamp: real, response: LlmResponse, toolResults: seq<Block>)

  /** The messages one turn adds: the assistant message, then the tool
      results as a user message when there are any. */
  function TurnMessages(t: Turn): seq<Message> {
    [t.response.message] + (if t.toolResults != [] then [Message("user", Blocks(t.toolResults))] else [])
  }

  function HistoryOf(turns: seq<Turn>): seq<Message> {
    if turns == [] then [] else HistoryOf(turns[..|turns| - 1]) + TurnMessages(turns[|turns| - 1])
  }

  /** One or two messages per turn. */
  lemma {:induction false} HistoryLength(turns: seq<Turn>)
    ensures |turns| <= |HistoryOf(turns)| <= 2 * |turns|
  {
    if turns != [] {
      HistoryLength(turns[..|turns| - 1]);
    }
  }

  /** The conversation only grows: the messages seen by an earlier turn are a
      prefix of the final history. */
  lemma {:induction false} HistoryPrefix(turns: seq<Turn>, k: nat)
    requires k <= |turns|
    ensures HistoryOf(turns[..k]) <= HistoryOf(turns)
    decreases |turns| - k
  {
    if k < |turns| {
      HistoryPrefix(turns, k + 1);
      assert turns[..k + 1][..k] == turns[..k];
    } else {
      assert turns[..k] == turns;
    }
  }

  /** A turn after which the loop goes on: the LLM asked for tools and some
      results came back. */
  predicate Continues(t: Turn) {
    t.response.stopReason == Some("tool_use") && t.toolResults != []
  }

  /** The tokens recorded for a turn: the reported total, else the
      estimate. */
  function ActualTokens(response: LlmResponse, estimated: int): (n: int)
    ensures response.totalTokens.None? ==> n == estimated
    ensures response.totalTokens.Some? ==> n == response.totalTokens.value
  {
    if response.totalTokens.Some? then response.totalTokens.value else estimated
  }

  /** A turn taken on the conversation `messages`: estimated on them, the
      LLM answered them, the recorded count is the reported one (else the
      estimate), and the tools ran exactly when the LLM stopped for them. */
  predicate TurnFollows(t: Turn, messages: seq<Message>, p: Provider, systemPrompt: string,
                        tools: seq<LlmTool>, svc: Services)
  {
    && t.estimated == |EstimateText(messages, systemPrompt, svc.dumps)| / 4
    && t.response == svc.llm(p, systemPrompt, tools, messages)
    && t.actual == ActualTokens(t.response, t.estimated)
    && t.toolResults == (if t.response.stopReason == Some("tool_use")
                         then ToolResultsFor(ToolUses(BlocksOf(t.response.message)), true, svc.call)
                         else [])
  }

  /** After an answer: the assistant message joins the conversation and the
      history; "end_turn" keeps its content as the reasoning and ends the
      loop; "tool_use" with results adds them as a user message and goes
      on; "tool_use" without results, and any other stop reason, end the
      loop. */
  method Follow(t: Turn, messages: seq<Message>, history: seq<Message>, reasoning: Content)
    returns (messages': seq<Message>, history': seq<Message>, reasoning': Content, done: bool)
    requires t.response.stopReason != Some("tool_use") ==> t.toolResults == []
    ensures messages' == messages + TurnMessages(t) && history' == history + TurnMessages(t)
    ensures done <==> !Continues(t)
    ensures reasoning' == if t.response.stopReason == Some("end_turn") then t.response.message.content else reasoning
  {
    var assistant := t.response.message;
    messages' := messages + [assistant];
    history' := history + [assistant];
    reasoning' := reasoning;
    done := false;
    if t.response.stopReason == Some("end_turn") {
      reasoning' := assistant.content;
      done := true;
    } else if t.response.stopReason == Some("tool_use") {
      if t.toolResults != [] {
        var toolMessage := Message("user", Blocks(t.toolResults));
        messages' := messages' + [toolMessage];
        history' := history' + [toolMessage];
      } else {
        done := true;
      }
    } else {
      done := true;
    }
  }

  lemma ContinuesAppend(turns: seq<Turn>, t: Turn)
    requires forall k :: 0 <= k < |turns| - 1 ==> Continues(turns[k])
    requires |turns| > 0 ==> Continues(turns[|turns| - 1])
    ensures forall k :: 0 <= k < |turns + [t]| - 1 ==> Continues((turns + [t])[k])
  {
  }

  /** Every turn follows from the opening message and the turns before it. */
  predicate TurnsFollow(turns: seq<Turn>, opening: Message, p: Provider, systemPrompt: string,
                        tools: seq<LlmTool>, svc: Services)
  {
    |turns| > 0 ==>
      var init := turns[..|turns| - 1];
      && TurnsFollow(init, opening, p, systemPrompt, tools, svc)
      && TurnFollows(turns[|turns| - 1], [opening] + HistoryOf(init), p, systemPrompt, tools, svc)
  }

  lemma {:induction false} TurnsFollowAppend(turns: seq<Turn>, t: Turn, opening: Message, p: Provider, systemPrompt: string,
                          tools: seq<LlmTool>, svc: Services)
    requires TurnsFollow(turns, opening, p, systemPrompt, tools, svc)
    requires TurnFollows(t, [opening] + HistoryOf(turns), p, systemPrompt, tools, svc)
    ensures TurnsFollow(turns + [t], opening, p, systemPrompt, tools, svc)
    ensures HistoryOf(turns + [t]) == HistoryOf(turns) + TurnMessages(t)
  {
    assert (turns + [t])[..|turns|] == turns;
  }

  /** Turn `k` was taken on the opening message followed by the messages of
      turns `0..k-1`. */
  lemma {:induction false} TurnsFollowAt(turns: seq<Turn>, k: nat, opening: Message, p: Provider,
                                         systemPrompt: string, tools: seq<LlmTool>, svc: Services)
    requires TurnsFollow(turns, opening, p, systemPrompt, tools, svc)
    requires k < |turns|
    ensures TurnFollows(turns[k], [opening] + HistoryOf(turns[..k]), p, systemPrompt, tools, svc)
    decreases |turns|
  {
    var init := turns[..|turns| - 1];
    if k < |turns| - 1 {
      TurnsFollowAt(init, k, opening, p, systemPrompt, tools, svc);
      assert init[..k] == turns[..k];
    }
  }

  // ---------------------------------------------------------------------
  // The limiter across the turns

  /** The instant the limiter's `acquire` at `clock` admits a request for
      `estimated` tokens, from the token history `th`: after the wait (plus
      0.1 s) the budgets of `p` in a 60-second window call for. */
  function AdmitAt(th: seq<(real, int)>, clock: real, estimated: int, p: Provider): real {
    var kept := RateLimiting.DropOlderTokens(th, clock - 60.0);
    var wait := RateLimiting.WaitTime(kept, RateLimiting.Stamps(kept), TokenBudget(p), RequestBudget(p), 60, clock, estimated);
    if wait > 0.0 then clock + wait + 0.1 else clock
  }

  /** The token history after that `acquire`: pruned at `clock`, the request
      appended at `stamp`, pruned again at `stamp`. */
  function Admitted(th: seq<(real, int)>, clock: real, stamp: real, estimated: int): seq<(real, int)> {
    RateLimiting.DropOlderTokens(RateLimiting.DropOlderTokens(th, clock - 60.0) + [(stamp, estimated)], stamp - 60.0)
  }

  /** `record_actual_usage`: the last entry's count becomes `actual`. */
  function WithActual(th: seq<(real, int)>, actual: int): seq<(real, int)> {
    if th == [] then [] else th[..|th| - 1] + [(th[|th| - 1].0, actual)]
  }

  /** The clock once `turns` were taken from `now`. */
  function ClockAfter(now: real, turns: seq<Turn>): real {
    if turns == [] then now else turns[|turns| - 1].stamp
  }

  /** The limiter's token history after `turns`, from `th` at `now`: each
      turn admitted at its stamp with its estimate, then its recorded count
      put in place of the estimate. */
  function TokensAfter(th: seq<(real, int)>, now: real, turns: seq<Turn>): seq<(real, int)> {
    if turns == [] then th
    else
      var init := turns[..|turns| - 1];
      var t := turns[|turns| - 1];
      WithActual(Admitted(TokensAfter(th, now, init), ClockAfter(now, init), t.stamp, t.estimated), t.actual)
  }

  /** Every turn was stamped at the instant the limiter admitted it. */
  predicate Throttled(th: seq<(real, int)>, now: real, turns: seq<Turn>, p: Provider) {
    turns != [] ==>
      var init := turns[..|turns| - 1];
      var t := turns[|turns| - 1];
      && Throttled(th, now, init, p)
      && t.stamp == AdmitAt(TokensAfter(th, now, init), ClockAfter(now, init), t.estimated, p)
  }

  /** One more turn: the fold takes one more step. */
  lemma ThrottledSnoc(th: seq<(real, int)>, now: real, turns: seq<Turn>, t: Turn, p: Provider)
    ensures TokensAfter(th, now, turns + [t])
         == WithActual(Admitted(TokensAfter(th, now, turns), ClockAfter(now, turns), t.stamp, t.estimated), t.actual)
    ensures Throttled(th, now, turns + [t], p)
        <==> Throttled(th, now, turns, p) && t.stamp == AdmitAt(TokensAfter(th, now, turns), ClockAfter(now, turns), t.estimated, p)
  {
    assert (turns + [t])[..|turns|] == turns;
  }

  /** After a turn the limiter's most recent entry is that turn's recorded
      count at its stamp. */
  lemma {:induction false} TokensAfterEndsWithTurn(th: seq<(real, int)>, now: real, turns: seq<Turn>)
    requires turns != []
    ensures LastRecorded(TokensAfter(th, now, turns), turns[|turns| - 1].stamp, turns[|turns| - 1].actual)
  {
    var init := turns[..|turns| - 1];
    var t := turns[|turns| - 1];
    var clock := ClockAfter(now, init);
    var kept := RateLimiting.DropOlderTokens(TokensAfter(th, now, init), clock - 60.0);
    RateLimiting.NewEntrySurvives(kept, t.stamp, t.estimated, 60);
  }

  /** The bookkeeping of one pass of the turn loop once the turn is taken:
      the turn joins the others, its answer is followed and the clock moves
      to its stamp. */
  method Advance(turns: seq<Turn>, t: Turn, opening: Message, messages: seq<Message>, history: seq<Message>,
                 reasoning: Content, now: real, clock: real,
                 p: Provider, systemPrompt: string, tools: seq<LlmTool>, svc: Services,
                 ghost th0: seq<(real, int)>, ghost th: seq<(real, int)>)
    returns (turns': seq<Turn>, messages': seq<Message>, history': seq<Message>, reasoning': Content,
             done: bool, clock': real)
    requires Conversed(turns, opening, messages, history, reasoning, false, now, clock, p, systemPrompt, tools, svc)
    requires TurnFollows(t, messages, p, systemPrompt, tools, svc)
    requires clock <= t.stamp
    requires th == TokensAfter(th0, now, turns) && Throttled(th0, now, turns, p)
    requires t.stamp == AdmitAt(th, clock, t.estimated, p)
    ensures Conversed(turns', opening, messages', history', reasoning', done, now, clock', p, systemPrompt, tools, svc)
    ensures turns' == turns + [t] && clock' == t.stamp
    ensures TokensAfter(th0, now, turns') == WithActual(Admitted(th, clock, t.stamp, t.estimated), t.actual)
    ensures Throttled(th0, now, turns', p)
  {
    ConversedStep(turns, t, opening, messages, history, reasoning, now, clock, p, systemPrompt, tools, svc);
    ThrottledSnoc(th0, now, turns, t, p);
    turns' := turns + [t];
    clock' := t.stamp;
    messages', history', reasoning', done := Follow(t, messages, history, reasoning);
  }

  /** The limiter's most recent entry holds `tokens` at `stamp`. */
  predicate LastRecorded(th: seq<(real, int)>, stamp: real, tokens: int) {
    th != [] && th[|th| - 1] == (stamp, tokens)
  }

  /** Turns stamped in admission order, none before `start`. */
  predicate StampsFrom(turns: seq<Turn>, start: real) {
    && (turns != [] ==> start <= turns[0].stamp)
    && forall k :: 0 < k < |turns| ==> turns[k - 1].stamp <= turns[k].stamp
  }

  /** The result before extraction: the reasoning is the content of the
      last answer when the LLM ended its turn, and empty otherwise. */
  function Reasoning(turns: seq<Turn>): Content {
    if turns != [] && turns[|turns| - 1].response.stopReason == Some("end_turn")
    then turns[|turns| - 1].response.message.content
    else Text("")
  }

  /** What the turn loop of `conduct_research` has built after `turns`:
      the history and the messages sent, the reasoning, whether the loop
      stopped, and the clock. */
  predicate Conversed(turns: seq<Turn>, opening: Message, messages: seq<Message>, history: seq<Message>,
                      reasoning: Content, done: bool, now: real, clock: real,
                      p: Provider, systemPrompt: string, tools: seq<LlmTool>, svc: Services)
  {
    && Accounted(turns, opening, messages, history, reasoning)
    && StopsAfterLast(turns, done)
    && TurnsFollow(turns, opening, p, systemPrompt, tools, svc)
    && Clocked(turns, now, clock)
  }

  /** The messages are the opening one and the history, the history holds
      every turn's messages and the reasoning is the last answer's. */
  predicate Accounted(turns: seq<Turn>, opening: Message, messages: seq<Message>, history: seq<Message>, reasoning: Content) {
    history == HistoryOf(turns) && messages == [opening] + history && reasoning == Reasoning(turns)
  }

  /** Every turn but the last goes on, and the loop is done exactly when the
      last one does not. */
  predicate StopsAfterLast(turns: seq<Turn>, done: bool) {
    && (forall k :: 0 <= k < |turns| - 1 ==> Continues(turns[k]))
    && (done <==> |turns| > 0 && !Continues(turns[|turns| - 1]))
  }

  /** The turns are stamped in order from `now`, and the clock stands at the
      last stamp. */
  predicate Clocked(turns: seq<Turn>, now: real, clock: real) {
    && StampsFrom(turns, now)
    && (|turns| == 0 ==> clock == now)
    && (|turns| > 0 ==> clock == turns[|turns| - 1].stamp)
  }

  /** Before any turn the account holds with only the opening message. */
  lemma ConversedStart(opening: Message, now: real, p: Provider, systemPrompt: string, tools: seq<LlmTool>, svc: Services)
    ensures Conversed([], opening, [opening], [], Text(""), false, now, now, p, systemPrompt, tools, svc)
  {
  }

  /** A turn taken on the messages so far, no earlier than the clock, keeps
      the loop's account: its messages join the history, the reasoning is
      its answer when it ended the turn, and the loop stops unless it goes
      on with tool results. */
  lemma {:induction false} ConversedStep(turns: seq<Turn>, t: Turn, opening: Message, messages: seq<Message>, history: seq<Message>,
                      reasoning: Content, now: real, clock: real,
                      p: Provider, systemPrompt: string, tools: seq<LlmTool>, svc: Services)
    requires Conversed(turns, opening, messages, history, reasoning, false, now, clock, p, systemPrompt, tools, svc)
    requires TurnFollows(t, messages, p, systemPrompt, tools, svc)
    requires clock <= t.stamp
    ensures Conversed(turns + [t], opening, messages + TurnMessages(t), history + TurnMessages(t),
                      if t.response.stopReason == Some("end_turn") then t.response.message.content else reasoning,
                      !Continues(t), now, t.stamp, p, systemPrompt, tools, svc)
  {
    var s := turns + [t];
    assert s[|s| - 1] == t;
    assert HistoryOf(s) == history + TurnMessages(t) && TurnsFollow(s, opening, p, systemPrompt, tools, svc) by {
      TurnsFollowAppend(turns, t, opening, p, systemPrompt, tools, svc);
    }
    assert messages + TurnMessages(t) == [opening] + (history + TurnMessages(t)) by {
      AssocAppend([opening], history, TurnMessages(t));
    }
    assert forall k :: 0 <= k < |s| - 1 ==> Continues(s[k]) by {
      ContinuesAppend(turns, t);
    }
    assert StampsFrom(s, now) by {
      StampsAppend(turns, t, now, clock);
    }
    assert reasoning == Text("");
  }

  class ResearchOrchestrator {
    const provider: Provider
    const limiter: RateLimiting.RateLimiter
    /** Whether the NHANES tool client is running. */
    var nhanesClientStarted: bool

    ghost predicate Valid()
      reads this, limiter
    {
      && limiter.Valid()
      && limiter.windowSeconds == 60
      && limiter.maxTokensPerMinute == TokenBudget(provider)
      && limiter.maxRequestsPerMinute == RequestBudget(provider)
    }

    constructor(p: Provider)
      ensures Valid() && fresh(limiter)
      ensures provider == p && !nhanesClientStarted
      ensures limiter.tokenHistory == [] && limiter.requestHistory == []
    {
      provider := p;
      limiter := new RateLimiting.RateLimiter(TokenBudget(p), RequestBudget(p), 60);
      nhanesClientStarted := false;
    }

    method StartMcpClients()
      modifies this
      ensures nhanesClientStarted
    {
      nhanesClientStarted := true;
    }

    method StopMcpClients()
      modifies this
      ensures !nhanesClientStarted
    {
      nhanesClientStarted := false;
    }

    /** `conduct_research`: at most `maxIterations` turns, each one limiter
        acquire, one LLM call and one usage record; the loop goes on only
        while the LLM asks for tools and results come back; the history
        holds every assistant message and every tool-result message; the
        files, variables and cycles are then extracted from it. */
    method ConductResearch(hypothesis: string, maxIterations: int, buildPrompt: string -> string,
                           systemPrompt: string, mcpTools: seq<McpTool>, now: real, svc: Services)
      returns (r: Result<ResearchResult, string>, turns: seq<Turn>, clock: real)
      requires Valid()
      requires forall i :: 0 <= i < |limiter.requestHistory| ==> limiter.requestHistory[i] <= now
      modifies limiter
      ensures Valid()
      ensures forall i :: 0 <= i < |limiter.requestHistory| ==> limiter.requestHistory[i] <= clock
      ensures !nhanesClientStarted ==> r.Err? && |turns| == 0 && clock == now && unchanged(limiter)
      ensures nhanesClientStarted ==> r.Ok?
      ensures |turns| <= (if maxIterations < 0 then 0 else maxIterations)
      ensures forall k :: 0 <= k < |turns| - 1 ==> Continues(turns[k])
      ensures nhanesClientStarted && |turns| < maxIterations ==> |turns| > 0 && !Continues(turns[|turns| - 1])
      ensures TurnsFollow(turns, Message("user", Text(buildPrompt(hypothesis))), provider, systemPrompt,
                          LlmTools(mcpTools), svc)
      ensures StampsFrom(turns, now)
      ensures |turns| > 0 ==> clock == turns[|turns| - 1].stamp
      ensures limiter.tokenHistory == TokensAfter(old(limiter.tokenHistory), now, turns)
      ensures limiter.requestHistory == RateLimiting.Stamps(limiter.tokenHistory)
      ensures Throttled(old(limiter.tokenHistory), now, turns, provider)
      ensures |turns| > 0 ==> LastRecorded(limiter.tokenHistory, clock, turns[|turns| - 1].actual)
      ensures r.Ok? ==>
        var res := r.value;
        var datas := HistoryData(HistoryOf(turns), svc.parse);
        && res.hypothesis == hypothesis && res.feasible
        && res.reasoning == Reasoning(turns)
        && res.conversationHistory == HistoryOf(turns)
        && (forall x :: x in res.dataFiles <==> FromData(datas, FilesOf, x))
        && (forall x :: x in res.variables <==> FromData(datas, VariablesOf, x))
        && (forall x :: x in res.recommendedCycles <==> FromData(datas, CyclesOf, x))
        && Distinct(res.dataFiles) && Distinct(res.variables) && Distinct(res.recommendedCycles)
        && (forall i, j :: 0 <= i < j < |res.recommendedCycles| ==>
              !Sorting.LexLess(res.recommendedCycles[i], res.recommendedCycles[j]))
    {
      turns := [];
      clock := now;
      if !nhanesClientStarted {
        r := Err("MCP clients not started. Call start_mcp_clients() first.");
        return;
      }
      var tools := ConvertMcpToolsToLlmFormat(mcpTools);
      var opening := Message("user", Text(buildPrompt(hypothesis)));
      var history, reasoning;
      turns, history, reasoning, clock := Converse(opening, maxIterations, systemPrompt, tools, now, svc);
      var result := ResearchResult(hypothesis, true, reasoning, [], [], [], history);
      var extracted := ExtractResearchResults(result, svc.parse);
      r := Ok(extracted);
    }

    /** The turn loop of `conduct_research`, from the opening message. */
    method Converse(opening: Message, maxIterations: int, systemPrompt: string, tools: seq<LlmTool>,
                    now: real, svc: Services)
      returns (turns: seq<Turn>, history: seq<Message>, reasoning: Content, clock: real)
      requires Valid()
      requires forall i :: 0 <= i < |limiter.requestHistory| ==> limiter.requestHistory[i] <= now
      modifies limiter
      ensures Valid()
      ensures forall i :: 0 <= i < |limiter.requestHistory| ==> limiter.requestHistory[i] <= clock
      ensures |turns| <= (if maxIterations < 0 then 0 else maxIterations)
      ensures forall k :: 0 <= k < |turns| - 1 ==> Continues(turns[k])
      ensures |turns| < maxIterations ==> |turns| > 0 && !Continues(turns[|turns| - 1])
      ensures TurnsFollow(turns, opening, provider, systemPrompt, tools, svc)
      ensures StampsFrom(turns, now)
      ensures |turns| == 0 ==> clock == now
      ensures |turns| > 0 ==> clock == turns[|turns| - 1].stamp
      ensures limiter.tokenHistory == TokensAfter(old(limiter.tokenHistory), now, turns)
      ensures Throttled(old(limiter.tokenHistory), now, turns, provider)
      ensures |turns| > 0 ==> LastRecorded(limiter.tokenHistory, clock, turns[|turns| - 1].actual)
      ensures history == HistoryOf(turns)
      ensures reasoning == Reasoning(turns)
    {
      var messages, done;
      turns, messages, history, reasoning, done, clock := RunTurns(opening, maxIterations, systemPrompt, tools, now, svc);
    }

    /** The loop itself: it ends after `maxIterations` turns or once a turn
        does not go on, and keeps the account `Conversed` describes. */
    method RunTurns(opening: Message, maxIterations: int, systemPrompt: string, tools: seq<LlmTool>,
                    now: real, svc: Services)
      returns (turns: seq<Turn>, messages: seq<Message>, history: seq<Message>, reasoning: Content,
               done: bool, clock: real)
      requires Valid()
      requires forall i :: 0 <= i < |limiter.requestHistory| ==> limiter.requestHistory[i] <= now
      modifies limiter
      ensures Valid()
      ensures forall i :: 0 <= i < |limiter.requestHistory| ==> limiter.requestHistory[i] <= clock
      ensures |turns| <= (if maxIterations < 0 then 0 else maxIterations)
      ensures |turns| < maxIterations ==> done
      ensures Conversed(turns, opening, messages, history, reasoning, done, now, clock, provider, systemPrompt, tools, svc)
      ensures limiter.tokenHistory == TokensAfter(old(limiter.tokenHistory), now, turns)
      ensures Throttled(old(limiter.tokenHistory), now, turns, provider)
      ensures |turns| > 0 ==> LastRecorded(limiter.tokenHistory, clock, turns[|turns| - 1].actual)
    {
      ghost var th0 := limiter.tokenHistory;
      turns := [];
      clock := now;
      messages := [opening];
      history := [];
      reasoning := Text("");
      // the loop's `break` is the flag `done`; `|turns|` counts the iterations
      done := false;
      ConversedStart(opening, now, provider, systemPrompt, tools, svc);
      while |turns| < maxIterations && !done
        invariant |turns| <= (if maxIterations < 0 then 0 else maxIterations)
        invariant Valid()
        invariant forall i :: 0 <= i < |limiter.requestHistory| ==> limiter.requestHistory[i] <= clock
        invariant Conversed(turns, opening, messages, history, reasoning, done, now, clock, provider, systemPrompt, tools, svc)
        invariant limiter.tokenHistory == TokensAfter(th0, now, turns) && Throttled(th0, now, turns, provider)
        invariant |turns| > 0 ==> LastRecorded(limiter.tokenHistory, clock, turns[|turns| - 1].actual)
        decreases maxIterations - |turns|
      {
        turns, messages, history, reasoning, done, clock :=
          Step(turns, opening, messages, history, reasoning, now, clock, systemPrompt, tools, svc, th0);
      }
    }

    /** One pass of the turn loop: a turn on the messages so far, then its
        answer followed. */
    method Step(turns: seq<Turn>, opening: Message, messages: seq<Message>, history: seq<Message>, reasoning: Content,
                now: real, clock: real, systemPrompt: string, tools: seq<LlmTool>, svc: Services,
                ghost th0: seq<(real, int)>)
      returns (turns': seq<Turn>, messages': seq<Message>, history': seq<Message>, reasoning': Content,
               done: bool, clock': real)
      requires Valid()
      requires forall i :: 0 <= i < |limiter.requestHistory| ==> limiter.requestHistory[i] <= clock
      requires Conversed(turns, opening, messages, history, reasoning, false, now, clock, provider, systemPrompt, tools, svc)
      requires limiter.tokenHistory == TokensAfter(th0, now, turns) && Throttled(th0, now, turns, provider)
      modifies limiter
      ensures Valid()
      ensures forall i :: 0 <= i < |limiter.requestHistory| ==> limiter.requestHistory[i] <= clock'
      ensures Conversed(turns', opening, messages', history', reasoning', done, now, clock', provider, systemPrompt, tools, svc)
      ensures |turns'| == |turns| + 1
      ensures limiter.tokenHistory == TokensAfter(th0, now, turns') && Throttled(th0, now, turns', provider)
      ensures LastRecorded(limiter.tokenHistory, clock', turns'[|turns'| - 1].actual)
    {
      ghost var th := limiter.tokenHistory;
      var t := TakeTurn(messages, clock, systemPrompt, tools, svc);
      turns', messages', history', reasoning', done, clock' :=
        Advance(turns, t, opening, messages, history, reasoning, now, clock, provider, systemPrompt, tools, svc, th0, th);
    }

    /** `await self.rate_limiter.acquire(estimated_tokens)`: the request is
        admitted no earlier than the clock and recorded last with the
        estimate. */
    method Admit(clock: real, estimated: int) returns (stamp: real)
      requires Valid()
      requires forall i :: 0 <= i < |limiter.requestHistory| ==> limiter.requestHistory[i] <= clock
      modifies limiter
      ensures Valid()
      ensures clock <= stamp
      ensures stamp == AdmitAt(old(limiter.tokenHistory), clock, estimated, provider)
      ensures limiter.tokenHistory == Admitted(old(limiter.tokenHistory), clock, stamp, estimated)
      ensures limiter.requestHistory == RateLimiting.Stamps(limiter.tokenHistory)
      ensures forall i :: 0 <= i < |limiter.requestHistory| ==> limiter.requestHistory[i] <= stamp
      ensures LastRecorded(limiter.tokenHistory, stamp, estimated)
    {
      stamp := limiter.Acquire(clock, estimated);
    }

    /** One turn: estimate the conversation, wait for the limiter, call the
        LLM, record the tokens it reports (else the estimate), and run the
        tools when it stopped for them. */
    method TakeTurn(messages: seq<Message>, clock: real, systemPrompt: string, tools: seq<LlmTool>, svc: Services)
      returns (t: Turn)
      requires Valid()
      requires forall i :: 0 <= i < |limiter.requestHistory| ==> limiter.requestHistory[i] <= clock
      modifies limiter
      ensures Valid()
      ensures TurnFollows(t, messages, provider, systemPrompt, tools, svc)
      ensures clock <= t.stamp
      ensures t.stamp == AdmitAt(old(limiter.tokenHistory), clock, t.estimated, provider)
      ensures limiter.tokenHistory == WithActual(Admitted(old(limiter.tokenHistory), clock, t.stamp, t.estimated), t.actual)
      ensures limiter.requestHistory == RateLimiting.Stamps(limiter.tokenHistory)
      ensures forall i :: 0 <= i < |limiter.requestHistory| ==> limiter.requestHistory[i] <= t.stamp
      ensures LastRecorded(limiter.tokenHistory, t.stamp, t.actual)
    {
      var estimated := EstimateTokens(messages, systemPrompt, svc.dumps);
      var stamp := Admit(clock, estimated);
      var response := svc.llm(provider, systemPrompt, tools, messages);
      var actual := if response.totalTokens.Some? then response.totalTokens.value else estimated;
      limiter.RecordActualUsage(actual);
      var results: seq<Block> := [];
      if response.stopReason == Some("tool_use") {
        results := ExecuteTools(BlocksOf(response.message), true, svc.call);
      }
      t := Turn(estimated, actual, stamp, response, results);
    }
  }

  lemma {:induction false} StampsAppend(turns: seq<Turn>, t: Turn, start: real, clock: real)
    requires StampsFrom(turns, start)
    requires turns == [] ==> clock == start
    requires turns != [] ==> clock == turns[|turns| - 1].stamp
    requires clock <= t.stamp
    ensures StampsFrom(turns + [t], start)
  {
    var s := turns + [t];
    forall k | 0 < k < |s|
      ensures s[k - 1].stamp <= s[k].stamp
    {
      if k < |turns| {
        assert s[k] == turns[k] && s[k - 1] == turns[k - 1];
      }
    }
  }

}

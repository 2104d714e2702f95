/** The prompt manager of `src/core`: an append-only message history that
    opens with a system message carrying a tool manifest. */
module CorePrompt {
  import opened Text
  import opened ChatTemplate

  /** One tool of the manifest: its arguments (name and type, in declaration
      order) and its description. */
  datatype Tool = Tool(args: seq<(string, string)>, description: string)

  /** The tools dictionary, in its insertion order; the name is the key. */
  type ToolTable = seq<(string, Tool)>

  const UsageInstructions :=
    "You have access to the following tools, which you can use by outputting a JSON object in the following format:\n"
    + "{\"tool\": \"tool_name\", \"args\": {\"arg1\": \"value1\", \"arg2\": \"value2\", ...}}\n"
    + "Replace 'tool_name' with the name of the tool, and provide the necessary arguments.\n"
    + "Available tools are:"

  /** `"arg: type"` for every argument, in order. */
  function ArgItems(args: seq<(string, string)>): (items: seq<string>)
    ensures |items| == |args|
    ensures forall k :: 0 <= k < |args| ==> items[k] == args[k].0 + ": " + args[k].1
  {
    seq(|args|, k requires 0 <= k < |args| => args[k].0 + ": " + args[k].1)
  }

  /** The manifest line of one tool: `"\n- name(arg: type, ...): description"`. */
  function ToolLine(name: string, tool: Tool): string
  {
    "\n- " + name + "(" + Join(ArgItems(tool.args), ", ") + "): " + tool.description
  }

  /** The manifest lines of all tools, in table order. */
  function ToolLines(tools: ToolTable): string
  {
    if tools == [] then "" else ToolLine(tools[0].0, tools[0].1) + ToolLines(tools[1..])
  }

  /** The manifest of a table is the manifest of its first part followed by
      the manifest of the rest: one line per tool, in order. */
  lemma {:induction false} ToolLinesAppend(ts: ToolTable, us: ToolTable)
    ensures ToolLines(ts + us) == ToolLines(ts) + ToolLines(us)
  {
    if ts == [] {
      assert [] + us == us;
    } else {
      assert (ts + us)[1..] == ts[1..] + us;
      ToolLinesAppend(ts[1..], us);
    }
  }

  /** A manifest with one more tool ends with that tool's line. */
  lemma ToolLinesSnoc(ts: ToolTable, t: (string, Tool))
    ensures ToolLines(ts + [t]) == ToolLines(ts) + ToolLine(t.0, t.1)
  {
    ToolLinesAppend(ts, [t]);
    assert [t][1..] == [];
  }

  /** The `+=` loop of `_initialize_system_prompt` over the tools. */
  method DescribeTools(tools: ToolTable) returns (descriptions: string)
    ensures descriptions == ToolLines(tools)
  {
    descriptions := "";
    for i := 0 to |tools|
      invariant descriptions == ToolLines(tools[..i])
    {
      var (name, tool) := tools[i];
      var args := Join(ArgItems(tool.args), ", ");
      var line := "\n- " + name + "(" + args + "): " + tool.description;
      assert tools[..i + 1] == tools[..i] + [tools[i]];
      ToolLinesSnoc(tools[..i], tools[i]);
      descriptions := descriptions + line;
    }
    assert tools[..|tools|] == tools;
  }

  /** The tool block: empty for an empty table, else the usage instructions
      followed by the manifest. */
  function ToolInstructions(tools: ToolTable): string
  {
    if tools == [] then "" else UsageInstructions + ToolLines(tools)
  }

  /** The text of the synthesised system message, before stripping. */
  function SystemPrompt(role: string, systemContent: string, tools: ToolTable): string
  {
    "Environment: ipython\n" + ToolInstructions(tools) + "\n"
    + "Cutting Knowledge Date: December 2023\n"
    + "Today Date: 23 July 2024\n\n"
    + "You are the " + role + ".\n\n"
    + systemContent
  }

  /** The message every history opens with. */
  function SystemMessage(role: string, systemContent: string, tools: ToolTable): Message
  {
    Message("system", Strip(SystemPrompt(role, systemContent, tools)))
  }

  /** Every tool of the table has its line in the manifest, between the
      lines of the tools before it and those of the tools after it. */
  lemma ToolLinesAt(tools: ToolTable, k: nat)
    requires k < |tools|
    ensures ToolLines(tools) == ToolLines(tools[..k]) + ToolLine(tools[k].0, tools[k].1) + ToolLines(tools[k + 1..])
  {
    var rest := tools[k..];
    assert tools == tools[..k] + rest;
    ToolLinesAppend(tools[..k], rest);
    assert rest[1..] == tools[k + 1..];
    ConcatAssoc(ToolLines(tools[..k]), ToolLine(tools[k].0, tools[k].1), ToolLines(tools[k + 1..]));
  }

  /** The tool block is there exactly when the table is non-empty. */
  lemma ToolBlockPresence(tools: ToolTable)
    ensures ToolInstructions(tools) == [] <==> tools == []
  {
    if tools != [] {
      assert |ToolInstructions(tools)| >= |UsageInstructions| > 0;
    }
  }

  /** A non-empty tool block is the usage instructions followed by every
      tool's line in table order. */
  lemma ToolBlockLists(tools: ToolTable, k: nat)
    requires k < |tools|
    ensures ToolInstructions(tools) ==
      UsageInstructions + ToolLines(tools[..k]) + ToolLine(tools[k].0, tools[k].1) + ToolLines(tools[k + 1..])
  {
    var before, line, after := ToolLines(tools[..k]), ToolLine(tools[k].0, tools[k].1), ToolLines(tools[k + 1..]);
    ToolLinesAt(tools, k);
    assert ToolInstructions(tools) == UsageInstructions + (before + line + after);
    ConcatAssoc(UsageInstructions, before + line, after);
    ConcatAssoc(UsageInstructions, before, line);
  }

  /** A history as the prompt manager keeps it: the system message first,
      and only stripped contents. */
  ghost predicate WellFormed(messages: seq<Message>, system: Message)
  {
    && messages != []
    && messages[0] == system
    && forall k :: 0 <= k < |messages| ==> IsStripped(messages[k].content)
  }

  class PromptManager {
    const role: string
    const systemContent: string
    const tools: ToolTable
    var messages: seq<Message>

    ghost predicate Valid()
      reads this
    {
      WellFormed(messages, SystemMessage(role, systemContent, tools))
    }

    /** A new manager holds exactly the synthesised system message. */
    constructor (role: string, systemContent: string, tools: ToolTable)
      ensures this.role == role && this.systemContent == systemContent && this.tools == tools
      ensures messages == [SystemMessage(role, systemContent, tools)]
      ensures Valid()
    {
      this.role := role;
      this.systemContent := systemContent;
      this.tools := tools;
      messages := [];
      new;
      InitializeSystemPrompt();
    }

    /** `_initialize_system_prompt`: builds the system prompt and appends it
        as a `"system"` message. */
    method InitializeSystemPrompt()
      modifies this
      ensures messages == old(messages) + [SystemMessage(role, systemContent, tools)]
    {
      var toolUsage := "";
      if tools != [] {
        var descriptions := DescribeTools(tools);
        toolUsage := UsageInstructions + descriptions;
      }
      var systemPrompt := "Environment: ipython\n" + toolUsage + "\n"
        + "Cutting Knowledge Date: December 2023\n"
        + "Today Date: 23 July 2024\n\n"
        + "You are the " + role + ".\n\n"
        + systemContent;
      AddObservedMessage("system", systemPrompt);
    }

    /** `add_observed_message`: appends one message with stripped content and
        leaves the earlier ones as they were. */
    method AddObservedMessage(role: string, content: string)
      modifies this
      ensures messages == old(messages) + [Message(role, Strip(content))]
      ensures old(Valid()) ==> Valid()
    {
      messages := messages + [Message(role, Strip(content))];
    }

    /** `get_prompt`: the history rendered with the chat template. */
    method GetPrompt() returns (prompt: string)
      ensures prompt == Render(messages)
    {
      prompt := BuildPrompt(messages);
    }

    /** `reset`: the history becomes that of a freshly built manager. */
    method Reset()
      modifies this
      ensures messages == [SystemMessage(role, systemContent, tools)]
      ensures Valid()
    {
      messages := [];
      InitializeSystemPrompt();
    }
  }
}

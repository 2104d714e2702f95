/** The prompt manager of `agents/`: the same history and template, with the
    tools given as a list of names shown on one `Tools:` line. */
module LegacyPrompt {
  import opened Text
  import opened ChatTemplate

  /** `"Tools: a, b, c"`, or the empty line when there are no tools. */
  function ToolsLine(tools: seq<string>): string
  {
    if tools == [] then "" else "Tools: " + Join(tools, ", ")
  }

  /** The tools line is empty exactly when there are no tools; one more tool
      adds `", name"` at its end. */
  lemma ToolsLineShape(tools: seq<string>, name: string)
    ensures ToolsLine(tools) == [] <==> tools == []
    ensures ToolsLine([name]) == "Tools: " + name
    ensures tools != [] ==> ToolsLine(tools + [name]) == ToolsLine(tools) + ", " + name
  {
    if tools != [] {
      JoinSnoc(tools, name, ", ");
    }
  }

  /** The text of the synthesised system message, before stripping. */
  function SystemPrompt(role: string, systemContent: string, tools: seq<string>): string
  {
    "Environment: ipython\n" + ToolsLine(tools) + "\n"
    + "Cutting Knowledge Date: December 2023\n"
    + "Today Date: 23 July 2024\n\n"
    + "You are the " + role + ".\n\n"
    + systemContent
  }

  function SystemMessage(role: string, systemContent: string, tools: seq<string>): Message
  {
    Message("system", Strip(SystemPrompt(role, systemContent, tools)))
  }

  class PromptManager {
    const role: string
    const systemContent: string
    const tools: seq<string>
    var messages: seq<Message>

    /** The system message first, and only stripped contents. */
    ghost predicate Valid()
      reads this
    {
      && messages != []
      && messages[0] == SystemMessage(role, systemContent, tools)
      && forall k :: 0 <= k < |messages| ==> IsStripped(messages[k].content)
    }

    /** A new manager holds exactly the synthesised system message. */
    constructor (role: string, systemContent: string, tools: seq<string>)
      ensures this.role == role && this.systemContent == systemContent && this.tools == tools
      ensures messages == [SystemMessage(role, systemContent, tools)]
      ensures Valid()
    {
      this.role := role;
      this.systemContent := systemContent;
      this.tools := tools;
      messages := [];
      new;
      InitializeSystemPrompt();
    }

    /** `_initialize_system_prompt`: appends the `"system"` message. */
    method InitializeSystemPrompt()
      modifies this
      ensures messages == old(messages) + [SystemMessage(role, systemContent, tools)]
    {
      var toolsLine := if tools != [] then "Tools: " + Join(tools, ", ") else "";
      var systemPrompt := "Environment: ipython\n" + toolsLine + "\n"
        + "Cutting Knowledge Date: December 2023\n"
        + "Today Date: 23 July 2024\n\n"
        + "You are the " + role + ".\n\n"
        + systemContent;
      AddObservedMessage("system", systemPrompt);
    }

    /** `add_observed_message`: appends one message with stripped content. */
    method AddObservedMessage(role: string, content: string)
      modifies this
      ensures messages == old(messages) + [Message(role, Strip(content))]
      ensures old(Valid()) ==> Valid()
    {
      messages := messages + [Message(role, Strip(content))];
    }

    /** `get_prompt`: the history rendered with the chat template. */
    method GetPrompt() returns (prompt: string)
      ensures prompt == Render(messages)
    {
      prompt := BuildPrompt(messages);
    }

    /** `reset`: only the regenerated system message remains. */
    method Reset()
      modifies this
      ensures messages == [SystemMessage(role, systemContent, tools)]
      ensures Valid()
    {
      messages := [];
      InitializeSystemPrompt();
    }
  }
}

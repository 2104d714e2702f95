/** The agent of `src/core`: it owns a prompt manager, asks the model whether
    to speak and what to say, and records both in its own history. */
module CoreAgent {
  import opened Wrappers
  import opened Text
  import opened ChatTemplate
  import opened Decision
  import CorePrompt

  /** `prompt_model`: the model's text, stripped; `None` after a failed
      request. */
  function PromptModel(model: Model, prompt: string): (reply: Option<string>)
    ensures reply.None? <==> model(prompt).None?
    ensures reply.Some? ==> IsStripped(reply.value)
    ensures reply.Some? ==> reply.value == Strip(model(prompt).value)
  {
    match model(prompt)
    case None => None
    case Some(text) => Some(Strip(text))
  }

  /** The role under which an agent records its reasoning. */
  function ThoughtsRole(role: string): string
  {
    role + "_thoughts"
  }

  /** The prompt sent when deciding: the rendered history followed directly
      by the decision instruction. */
  function DecisionPrompt(history: seq<Message>, role: string): string
  {
    Render(history) + Instruction(role)
  }

  /** The outcome of `should_respond`: the request failed (the source then
      raises on `None.strip()`), or a decision with the model's reasoning. */
  datatype Thoughts = Failed | Decided(respond: bool, reasoning: string)

  class Agent {
    const role: string
    const systemMessage: string
    const isHuman: bool
    const promptManager: CorePrompt.PromptManager

    /** A new agent owns a fresh prompt manager built from its role, system
        message and tools. */
    constructor (role: string, systemMessage: string, isHuman: bool, tools: CorePrompt.ToolTable)
      ensures this.role == role && this.systemMessage == systemMessage && this.isHuman == isHuman
      ensures fresh(promptManager) && promptManager.Valid()
      ensures promptManager.role == role && promptManager.systemContent == systemMessage
      ensures promptManager.tools == tools
      ensures promptManager.messages == [CorePrompt.SystemMessage(role, systemMessage, tools)]
    {
      this.role := role;
      this.systemMessage := systemMessage;
      this.isHuman := isHuman;
      promptManager := new CorePrompt.PromptManager(role, systemMessage, tools);
    }

    /** `should_respond`: the model sees the rendered history plus the
        decision instruction (which is not stored); its text is recorded under
        `<role>_thoughts` and returned as the reasoning, and the decision is
        read from it. A failed request leaves the history untouched. */
    method ShouldRespond(model: Model) returns (thoughts: Thoughts)
      modifies promptManager
      ensures match PromptModel(model, DecisionPrompt(old(promptManager.messages), role))
        case None =>
          && thoughts == Failed
          && promptManager.messages == old(promptManager.messages)
        case Some(text) =>
          && thoughts == Decided(Decide(text), text)
          && promptManager.messages == old(promptManager.messages) + [Message(ThoughtsRole(role), text)]
    {
      var prompt := promptManager.GetPrompt();
      var decisionInstruction := Instruction(role);
      prompt := prompt + decisionInstruction;
      var responseText := PromptModel(model, prompt);
      if responseText.None? {
        return Failed;
      }
      var text := responseText.value;
      AddObservedMessage(role + "_thoughts", text);
      StripFixesStripped(text);
      thoughts := Decided(Decide(text), text);
    }

    /** `generate_response`: the model sees the rendered history; its text is
        recorded under the agent's own role and returned, equal to what was
        stored. A failed request leaves the history untouched. */
    method GenerateResponse(model: Model) returns (response: Option<string>)
      modifies promptManager
      ensures response == PromptModel(model, Render(old(promptManager.messages)))
      ensures response.None? ==> promptManager.messages == old(promptManager.messages)
      ensures response.Some? ==>
        promptManager.messages == old(promptManager.messages) + [Message(role, response.value)]
    {
      var prompt := promptManager.GetPrompt();
      response := PromptModel(model, prompt);
      if response.None? {
        return;
      }
      AddObservedMessage(role, response.value);
      StripFixesStripped(response.value);
    }

    /** `add_observed_message`: the history gains the message before the log
        file would be written. */
    method AddObservedMessage(sender: string, message: string)
      modifies promptManager
      ensures promptManager.messages == old(promptManager.messages) + [Message(sender, Strip(message))]
    {
      promptManager.AddObservedMessage(sender, message);
    }
  }
}

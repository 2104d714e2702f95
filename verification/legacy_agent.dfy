/** The agent of `agents/`: deciding whether to speak is a pure computation
    from the conversation context and the model's answer. */
module LegacyAgent {
  import opened Wrappers
  import opened Text
  import opened Decision

  /** The reasoning reported when the model request fails. */
  const ErrorReasoning := "Error prompting model"

  /** The prompt sent when deciding: the context, a newline, and the
      decision instruction. */
  function DecisionPrompt(context: string, role: string): string
  {
    context + "\n" + Instruction(role)
  }

  /** `should_respond(context)`: a failed request gives No with the fixed
      error reasoning instead of an exception; otherwise the model's text is
      returned verbatim, unstripped, and the decision is Yes exactly when its
      lower-cased form contains the yes marker. */
  function ShouldRespond(role: string, context: string, model: Model): (result: (bool, string))
    ensures match model(DecisionPrompt(context, role))
      case None => result == (false, ErrorReasoning)
      case Some(text) => result.1 == text && (result.0 <==> Contains(Lower(text), YesMarker))
  {
    match model(DecisionPrompt(context, role))
    case None => (false, ErrorReasoning)
    case Some(responseText) => (Decide(responseText), responseText)
  }

  /** Only a successful request that mentions the yes marker gives Yes: the
      error fallback always says No. */
  lemma YesNeedsReply(role: string, context: string, model: Model)
    requires ShouldRespond(role, context, model).0
    ensures model(DecisionPrompt(context, role)).Some?
    ensures Contains(Lower(model(DecisionPrompt(context, role)).value), YesMarker)
  {
  }
}

/** How an agent asks the model whether to speak and reads the answer; both
    agent classes use the same instruction text and the same test. */
module Decision {
  import opened Wrappers
  import opened Text

  /** The language model as seen by an agent: a prompt in, the generated
      text out, or `None` when the request fails. */
  type Model = string -> Option<string>

  const YesMarker := "decision: yes"
  const NoMarker := "decision: no"

  /** The instruction appended to the prompt when asking whether to speak. */
  function Instruction(role: string): string
  {
    "Considering the above conversation, should I, as the " + role + ", respond at this point? "
    + "Provide a short summary of your reasoning and conclude with 'Decision: Yes' or 'Decision: No'."
  }

  /** The decision read from the model's text: `'no'` to start with, `'yes'`
      if the lower-cased text contains the yes marker, else `'no'` again if it
      contains the no marker. */
  function Decide(text: string): bool
  {
    var lowered := Lower(text);
    var decision :=
      if Contains(lowered, YesMarker) then "yes"
      else if Contains(lowered, NoMarker) then "no"
      else "no";
    decision == "yes"
  }

  /** The decision is Yes exactly when the lower-cased text contains the yes
      marker: the no marker never matters, so with both markers Yes wins and
      with neither the answer is No. */
  lemma DecideIffYesMarker(text: string)
    ensures Decide(text) <==> Contains(Lower(text), YesMarker)
    ensures !Contains(Lower(text), YesMarker) ==> !Decide(text)
  {
  }

  /** A yes marker written in any letter case anywhere in the text gives Yes. */
  lemma YesInAnyCase(text: string, marker: string)
    requires Lower(marker) == YesMarker
    requires Contains(text, marker)
    ensures Decide(text)
  {
    ContainsLower(text, marker);
  }

  /** In particular the spelling the instruction asks for gives Yes. */
  lemma RequestedYesSpelling(text: string)
    requires Contains(text, "Decision: Yes")
    ensures Decide(text)
  {
    var marker := "Decision: Yes";
    assert Lower(marker) == YesMarker by {
      assert forall k :: 0 <= k < |marker| ==> Lower(marker)[k] == YesMarker[k];
    }
    YesInAnyCase(text, marker);
  }

  /** Text whose lower-cased form holds no yes marker gives No, whether or
      not it says `Decision: No`. */
  lemma NoWithoutYes(text: string)
    requires Contains(text, "Decision: No")
    requires !Contains(Lower(text), YesMarker)
    ensures !Decide(text)
  {
  }
}

/** The Llama 3.1 chat template that both prompt managers use to turn a
    message history into one prompt string. */
module ChatTemplate {
  import opened Text

  const BeginOfText := "<|begin_of_text|>"
  const StartHeader := "<|start_header_id|>"
  const EndHeader := "<|end_header_id|>"
  const EndOfTurn := "<|eot_id|>"
  const PythonTag := "<|python_tag|>"

  /** The role under which the template lets a message run on without an
      end-of-turn marker. */
  const AssistantRole := "assistant"

  /** One `{role, content}` entry of a history. */
  datatype Message = Message(role: string, content: string)

  /** The role name wrapped in the header tokens. */
  function Header(role: string): string
  {
    StartHeader + role + EndHeader
  }

  /** An assistant message that starts with the python tag is tool code that
      continues inline: it gets no end-of-turn marker. */
  predicate ContinuesInline(m: Message)
  {
    m.role == AssistantRole && StartsWith(m.content, PythonTag)
  }

  /** The text one message contributes to a prompt: the loop body of
      `get_prompt`. */
  function Segment(m: Message): string
  {
    if ContinuesInline(m) then Header(m.role) + "\n" + m.content
    else Header(m.role) + "\n\n" + m.content + EndOfTurn
  }

  /** The segments of `ms`, in order. */
  function Segments(ms: seq<Message>): string
  {
    if ms == [] then "" else Segment(ms[0]) + Segments(ms[1..])
  }

  /** The prompt a prompt manager builds from its history. */
  function Render(ms: seq<Message>): string
  {
    BeginOfText + Segments(ms)
  }

  /** One more message adds exactly its own segment at the end. */
  lemma {:induction false} SegmentsSnoc(ms: seq<Message>, m: Message)
    ensures Segments(ms + [m]) == Segments(ms) + Segment(m)
  {
    if ms == [] {
      assert [m][1..] == [];
    } else {
      assert (ms + [m])[1..] == ms[1..] + [m];
      SegmentsSnoc(ms[1..], m);
    }
  }

  /** The segments of a concatenated history are the concatenated segments:
      rendering keeps insertion order. */
  lemma {:induction false} SegmentsAppend(ms: seq<Message>, ns: seq<Message>)
    ensures Segments(ms + ns) == Segments(ms) + Segments(ns)
  {
    if ms == [] {
      assert [] + ns == ns;
    } else {
      assert (ms + ns)[1..] == ms[1..] + ns;
      SegmentsAppend(ms[1..], ns);
    }
  }

  lemma ConcatAssoc<T>(a: seq<T>, b: seq<T>, c: seq<T>)
    ensures a + (b + c) == (a + b) + c
  {
  }

  /** Appending a message to a history extends its prompt by that message's
      segment, so the old prompt is a prefix of the new one. */
  lemma RenderSnoc(ms: seq<Message>, m: Message)
    ensures Render(ms + [m]) == Render(ms) + Segment(m)
    ensures Render(ms) <= Render(ms + [m])
  {
    SegmentsSnoc(ms, m);
    ConcatAssoc(BeginOfText, Segments(ms), Segment(m));
  }

  /** Rendering a longer history only adds the segments of the new
      messages, in order. */
  lemma RenderAppend(ms: seq<Message>, ns: seq<Message>)
    ensures Render(ms + ns) == Render(ms) + Segments(ns)
  {
    SegmentsAppend(ms, ns);
    ConcatAssoc(BeginOfText, Segments(ms), Segments(ns));
  }

  /** Each message's segment sits in the prompt right after the prompt of
      the messages before it, followed by the segments of those after it. */
  lemma RenderAt(ms: seq<Message>, k: nat)
    requires k < |ms|
    ensures Render(ms) == Render(ms[..k]) + Segment(ms[k]) + Segments(ms[k + 1..])
  {
    var before := ms[..k] + [ms[k]];
    assert ms == before + ms[k + 1..];
    RenderAppend(before, ms[k + 1..]);
    RenderSnoc(ms[..k], ms[k]);
  }

  /** Every segment opens with its role's header. Whatever the content, a
      message whose role is not the assistant's ends its segment with the
      end-of-turn marker; only the inline case lacks it. */
  lemma SegmentTermination(m: Message)
    ensures !ContinuesInline(m) ==> Segment(m) == Header(m.role) + "\n\n" + m.content + EndOfTurn
    ensures ContinuesInline(m) ==> Segment(m) == Header(m.role) + "\n" + m.content
    ensures m.role != AssistantRole ==> !ContinuesInline(m)
    ensures |Header(m.role)| <= |Segment(m)| && Segment(m)[..|Header(m.role)|] == Header(m.role)
    ensures !ContinuesInline(m) ==>
      |EndOfTurn| <= |Segment(m)| && Segment(m)[|Segment(m)| - |EndOfTurn|..] == EndOfTurn
  {
    var h, s := Header(m.role), Segment(m);
    if ContinuesInline(m) {
      assert s == h + ("\n" + m.content);
    } else {
      var body := h + "\n\n" + m.content;
      assert s == body + EndOfTurn;
      assert s == h + ("\n\n" + m.content + EndOfTurn);
    }
  }

  /** `get_prompt`: the begin-of-text token, then one segment per message in
      history order. */
  method BuildPrompt(messages: seq<Message>) returns (prompt: string)
    ensures prompt == Render(messages)
  {
    prompt := BeginOfText;
    for i := 0 to |messages|
      invariant prompt == Render(messages[..i])
    {
      assert messages[..i + 1] == messages[..i] + [messages[i]];
      RenderSnoc(messages[..i], messages[i]);
      prompt := prompt + Segment(messages[i]);
    }
    assert messages[..|messages|] == messages;
  }
}

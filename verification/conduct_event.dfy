/** The event page: an event gathers the loaded agents named in its
    configuration, and after each user message every non-human participant
    decides whether to answer the conversation so far. */
module ConductEvent {
  import opened Wrappers
  import opened Text
  import opened ChatTemplate
  import opened Decision
  import LegacyAgent
  import LegacyPrompt

  /** An agent as the event page uses it: the role, the human flag and the
      prompt manager that other participants' responses are delivered to. */
  class Participant {
    const role: string
    const isHuman: bool
    const promptManager: LegacyPrompt.PromptManager

    constructor (role: string, isHuman: bool, promptManager: LegacyPrompt.PromptManager)
      ensures this.role == role && this.isHuman == isHuman && this.promptManager == promptManager
    {
      this.role := role;
      this.isHuman := isHuman;
      this.promptManager := promptManager;
    }
  }

  /** An entry of the events configuration: the `participants` and
      `description` keys when present, and whether any other key is. */
  datatype EventConfig = EventConfig(participants: Option<seq<string>>, description: Option<string>, otherKeys: bool)

  /** A configuration dictionary is true in Python unless it has no key. */
  predicate Truthy(config: EventConfig)
  {
    config.participants.Some? || config.description.Some? || config.otherKeys
  }

  /** A started event. */
  datatype Event = Event(name: string, description: string, participants: seq<Participant>)

  /** What `initialize_event` gives: no event (unknown name or empty
      configuration), the `KeyError` of a configuration without a
      `participants` key, or the event. */
  datatype Initialized = NoEvent | MissingParticipants | Started(event: Event)

  /** The agents of the listed roles, in the listed order, leaving out the
      roles no agent was loaded for. */
  function Present(roles: seq<string>, agents: map<string, Participant>): seq<Participant>
  {
    if roles == [] then []
    else Present(roles[..|roles| - 1], agents) + (if roles[|roles| - 1] in agents then [agents[roles[|roles| - 1]]] else [])
  }

  /** The participants are exactly the loaded agents of listed roles. */
  lemma {:induction false} PresentMembers(roles: seq<string>, agents: map<string, Participant>)
    ensures |Present(roles, agents)| <= |roles|
    ensures forall p :: p in Present(roles, agents) <==> exists r :: r in roles && r in agents && agents[r] == p
  {
    if roles != [] {
      var front := roles[..|roles| - 1];
      PresentMembers(front, agents);
      assert roles == front + [roles[|roles| - 1]];
    }
  }

  /** When every listed role has an agent, nothing is dropped and the order
      is the configuration's. */
  lemma {:induction false} PresentAll(roles: seq<string>, agents: map<string, Participant>)
    requires forall r :: r in roles ==> r in agents
    ensures |Present(roles, agents)| == |roles|
    ensures forall k :: 0 <= k < |roles| ==> Present(roles, agents)[k] == agents[roles[k]]
  {
    if roles != [] {
      var front := roles[..|roles| - 1];
      assert forall r :: r in front ==> r in roles;
      PresentAll(front, agents);
    }
  }

  /** `initialize_event`: looks the name up, then collects the participants
      in configuration order; the description defaults to the empty text. */
  method InitializeEvent(configs: map<string, EventConfig>, agents: map<string, Participant>, eventName: string)
    returns (result: Initialized)
    ensures eventName !in configs || !Truthy(configs[eventName]) <==> result == NoEvent
    ensures result == MissingParticipants <==>
      eventName in configs && Truthy(configs[eventName]) && configs[eventName].participants.None?
    ensures result.Started? ==>
      var config := configs[eventName];
      && config.participants.Some?
      && result.event.name == eventName
      && result.event.description == (if config.description.Some? then config.description.value else "")
      && result.event.participants == Present(config.participants.value, agents)
  {
    if eventName !in configs || !Truthy(configs[eventName]) {
      return NoEvent;
    }
    var config := configs[eventName];
    if config.participants.None? {
      return MissingParticipants;
    }
    var roles := config.participants.value;
    var participants := [];
    for i := 0 to |roles|
      invariant participants == Present(roles[..i], agents)
    {
      assert roles[..i + 1][..i] == roles[..i];
      if roles[i] in agents {
        participants := participants + [agents[roles[i]]];
      }
    }
    assert roles[..|roles|] == roles;
    var description := if config.description.Some? then config.description.value else "";
    result := Started(Event(eventName, description, participants));
  }

  /** An entry of the conversation history: the sender, the message (`None`
      when the agent declined) and the agent's reasoning. */
  datatype Entry = Entry(sender: string, message: Option<string>, thought: string)

  /** `f"{sender}: {message}"`, where a missing message prints as `None`. */
  function EntryLine(e: Entry): string
  {
    e.sender + ": " + (if e.message.Some? then e.message.value else "None")
  }

  /** The conversation context: the entries' lines, in order, joined with
      newlines. */
  function Context(history: seq<Entry>): string
  {
    Join(seq(|history|, k requires 0 <= k < |history| => EntryLine(history[k])), "\n")
  }

  /** One more entry adds one newline and its line to the context. */
  lemma ContextSnoc(history: seq<Entry>, e: Entry)
    ensures Context([e]) == EntryLine(e)
    ensures history != [] ==> Context(history + [e]) == Context(history) + "\n" + EntryLine(e)
  {
    if history != [] {
      var lines := seq(|history|, k requires 0 <= k < |history| => EntryLine(history[k]));
      var more := history + [e];
      assert seq(|more|, k requires 0 <= k < |more| => EntryLine(more[k])) == lines + [EntryLine(e)];
      JoinSnoc(lines, EntryLine(e), "\n");
    }
  }

  /** The generated response of an agent of the given role to a context. */
  type Generator = (string, string) -> string

  /** How the agent of a role decides on a context: the decision and the
      reasoning. */
  type Decider = (string, string) -> (bool, string)

  /** `decide` is the decision step of the agents of `agents/` asking
      `model`. */
  ghost predicate Decides(decide: Decider, model: Model)
  {
    forall role, context {:trigger LegacyAgent.DecisionPrompt(context, role)} ::
      decide(role, context) == LegacyAgent.ShouldRespond(role, context, model)
  }

  /** The decisions of the agents of `agents/` asking `model`. */
  function AgentDecider(model: Model): Decider
  {
    (role, context) => LegacyAgent.ShouldRespond(role, context, model)
  }

  lemma AgentDeciderDecides(model: Model)
    ensures Decides(AgentDecider(model), model)
  {
  }

  /** The history entry of a non-human participant: its decision on the
      context, and then the generated response or nothing. */
  function Respond(role: string, context: string, decide: Decider, generate: Generator): Entry
  {
    var decision := decide(role, context);
    Entry(role, if decision.0 then Some(generate(role, context)) else None, decision.1)
  }

  /** The entries the given participants add, in order: one per non-human,
      none for a human. */
  function Entries(ps: seq<Participant>, context: string, decide: Decider, generate: Generator): seq<Entry>
  {
    if ps == [] then []
    else
      var p := ps[|ps| - 1];
      Entries(ps[..|ps| - 1], context, decide, generate) + (if p.isHuman then [] else [Respond(p.role, context, decide, generate)])
  }

  /** The non-human participants, in order. */
  function NonHumans(ps: seq<Participant>): seq<Participant>
  {
    if ps == [] then []
    else NonHumans(ps[..|ps| - 1]) + (if ps[|ps| - 1].isHuman then [] else [ps[|ps| - 1]])
  }

  /** Exactly one entry per non-human participant, in participant order;
      humans add none. Each entry carries its agent's role and reasoning,
      and a message exactly when the agent decided to respond. */
  lemma {:induction false} EntriesPerAgent(ps: seq<Participant>, context: string, decide: Decider, generate: Generator)
    ensures var es, agents := Entries(ps, context, decide, generate), NonHumans(ps);
      && |es| == |agents|
      && forall k :: 0 <= k < |agents| ==>
        && es[k].sender == agents[k].role
        && es[k].thought == decide(agents[k].role, context).1
        && (es[k].message.Some? <==> decide(agents[k].role, context).0)
        && (es[k].message.Some? ==> es[k].message.value == generate(agents[k].role, context))
    ensures forall p :: p in NonHumans(ps) <==> p in ps && !p.isHuman
  {
    if ps != [] {
      var front := ps[..|ps| - 1];
      EntriesPerAgent(front, context, decide, generate);
      assert ps == front + [ps[|ps| - 1]];
    }
  }

  /** What the participant of role `role` receives of the entries: every
      response given by another role, stripped, under its sender's role. */
  function Received(role: string, entries: seq<Entry>): (r: seq<Message>)
    ensures forall m :: m in r ==> m.role != role
    ensures |r| <= |entries|
  {
    if entries == [] then []
    else
      var e := entries[|entries| - 1];
      Received(role, entries[..|entries| - 1])
      + (if e.message.Some? && e.sender != role then [Message(e.sender, Strip(e.message.value))] else [])
  }

  /** Every response from another role reaches the participant: the
      messages received are exactly one per such entry. */
  lemma {:induction false} ReceivedCount(role: string, entries: seq<Entry>)
    ensures |Received(role, entries)| == |set k | 0 <= k < |entries| && entries[k].message.Some? && entries[k].sender != role|
  {
    if entries != [] {
      var n := |entries| - 1;
      var front := entries[..n];
      ReceivedCount(role, front);
      var before := set k | 0 <= k < n && front[k].message.Some? && front[k].sender != role;
      var after := set k | 0 <= k < |entries| && entries[k].message.Some? && entries[k].sender != role;
      if entries[n].message.Some? && entries[n].sender != role {
        assert after == before + {n};
      } else {
        assert after == before;
      }
    }
  }

  /** The histories of all participants, in order. */
  type Histories = seq<seq<Message>>

  /** Every participant's history extended by what it receives of the
      entries. */
  function Grown(hs: Histories, ps: seq<Participant>, entries: seq<Entry>): (r: Histories)
    requires |hs| == |ps|
    ensures |r| == |hs|
  {
    seq(|hs|, j requires 0 <= j < |hs| => hs[j] + Received(ps[j].role, entries))
  }

  /** The histories after the message `m` reached the participants before
      position `n` whose role differs from its sender's. */
  function Broadcast(hs: Histories, ps: seq<Participant>, m: Message, n: nat): (r: Histories)
    requires |hs| == |ps|
    ensures |r| == |hs|
  {
    seq(|hs|, j requires 0 <= j < |hs| => if j < n && ps[j].role != m.role then hs[j] + [m] else hs[j])
  }

  /** One more entry: its response, if any, reaches the roles other than
      its sender's. */
  lemma ReceivedSnoc(role: string, entries: seq<Entry>, e: Entry)
    ensures Received(role, entries + [e]) ==
      Received(role, entries) + (if e.message.Some? && e.sender != role then [Message(e.sender, Strip(e.message.value))] else [])
  {
    var more := entries + [e];
    assert more[..|more| - 1] == entries;
  }

  /** A declined entry reaches nobody; a response reaches, by the broadcast,
      exactly those the received messages say. */
  lemma GrownStep(hs: Histories, ps: seq<Participant>, entries: seq<Entry>, e: Entry)
    requires |hs| == |ps|
    ensures e.message.None? ==> Grown(hs, ps, entries + [e]) == Grown(hs, ps, entries)
    ensures e.message.Some? ==>
      Grown(hs, ps, entries + [e]) == Broadcast(Grown(hs, ps, entries), ps, Message(e.sender, Strip(e.message.value)), |ps|)
  {
    var grown, more := Grown(hs, ps, entries), Grown(hs, ps, entries + [e]);
    var target := if e.message.Some? then Broadcast(grown, ps, Message(e.sender, Strip(e.message.value)), |ps|) else grown;
    forall j | 0 <= j < |hs|
      ensures more[j] == target[j]
    {
      var tail := if e.message.Some? && e.sender != ps[j].role then [Message(e.sender, Strip(e.message.value))] else [];
      ReceivedSnoc(ps[j].role, entries, e);
      ConcatAssoc(hs[j], Received(ps[j].role, entries), tail);
      if tail == [] {
        assert grown[j] + tail == grown[j];
      }
    }
    assert more == target;
  }

  /** One more participant reached by a broadcast. */
  lemma BroadcastStep(hs: Histories, ps: seq<Participant>, m: Message, n: nat)
    requires |hs| == |ps| && n < |hs|
    ensures ps[n].role == m.role ==> Broadcast(hs, ps, m, n + 1) == Broadcast(hs, ps, m, n)
    ensures ps[n].role != m.role ==>
      Broadcast(hs, ps, m, n + 1) == Broadcast(hs, ps, m, n)[n := Broadcast(hs, ps, m, n)[n] + [m]]
  {
  }

  /** The participants' prompt managers. */
  ghost function Managers(ps: seq<Participant>): set<LegacyPrompt.PromptManager>
  {
    set j | 0 <= j < |ps| :: ps[j].promptManager
  }

  /** No two participants share a prompt manager. */
  ghost predicate Distinct(ps: seq<Participant>)
  {
    forall i, j :: 0 <= i < |ps| && 0 <= j < |ps| && ps[i].promptManager == ps[j].promptManager ==> i == j
  }

  /** The participants' histories are `hs`. */
  ghost predicate Holds(ps: seq<Participant>, hs: Histories)
    reads Managers(ps)
  {
    && |hs| == |ps|
    && forall j :: 0 <= j < |ps| ==> ps[j].promptManager.messages == hs[j]
  }

  /** The response of the participant of role `role` to every participant
      of another role, humans included. */
  method DeliverResponse(ps: seq<Participant>, role: string, response: string, ghost hs: Histories)
    requires Distinct(ps) && Holds(ps, hs)
    modifies Managers(ps)
    ensures Holds(ps, Broadcast(hs, ps, Message(role, Strip(response)), |ps|))
  {
    ghost var message := Message(role, Strip(response));
    for j := 0 to |ps|
      invariant Holds(ps, Broadcast(hs, ps, message, j))
    {
      ghost var before := Broadcast(hs, ps, message, j);
      BroadcastStep(hs, ps, message, j);
      var p := ps[j];
      if p.role != role {
        assert p.promptManager in Managers(ps);
        p.promptManager.AddObservedMessage(role, response);
        forall m | 0 <= m < |ps| && m != j
          ensures ps[m].promptManager.messages == before[m]
        {
          assert ps[m].promptManager != p.promptManager;
        }
      }
    }
  }

  /** The entries of one more participant. */
  lemma EntriesStep(ps: seq<Participant>, i: nat, context: string, decide: Decider, generate: Generator)
    requires i < |ps|
    ensures Entries(ps[..i + 1], context, decide, generate) ==
      Entries(ps[..i], context, decide, generate) + (if ps[i].isHuman then [] else [Respond(ps[i].role, context, decide, generate)])
  {
    assert ps[..i + 1][..i] == ps[..i];
  }

  /** Participants that are all human add no entries. */
  lemma {:induction false} HumansAddNothing(ps: seq<Participant>, m: nat, context: string, decide: Decider, generate: Generator)
    requires m <= |ps|
    requires forall j :: 0 <= j < m ==> ps[j].isHuman
    ensures Entries(ps[..m], context, decide, generate) == []
  {
    if m == 0 {
      assert ps[..0] == [];
    } else {
      HumansAddNothing(ps, m - 1, context, decide, generate);
      EntriesStep(ps, m - 1, context, decide, generate);
    }
  }

  /** The position of the first non-human participant, or the number of
      participants when all of them are human. */
  function FirstAgent(ps: seq<Participant>): (n: nat)
    ensures n <= |ps|
    ensures forall j :: 0 <= j < n ==> ps[j].isHuman
    ensures n < |ps| ==> !ps[n].isHuman
  {
    if ps == [] || !ps[0].isHuman then 0 else 1 + FirstAgent(ps[1..])
  }

  /** How many participants `process_agent_responses` gets through. After
      each non-human participant it opens an existing project file for
      writing and then reads it as JSON, which raises: with that file
      present, processing ends after the first non-human participant. */
  function Processed(ps: seq<Participant>, projectFileExists: bool): nat
  {
    if projectFileExists && FirstAgent(ps) < |ps| then FirstAgent(ps) + 1 else |ps|
  }

  /** With the project file present, processing stops after the first
      non-human participant. */
  lemma ProcessedStop(ps: seq<Participant>, i: nat)
    requires i < |ps| && !ps[i].isHuman && i <= FirstAgent(ps)
    ensures Processed(ps, true) == i + 1
  {
  }

  /** Without the project file, or with only humans, everybody is
      processed. */
  lemma ProcessedAll(ps: seq<Participant>, projectFileExists: bool)
    requires projectFileExists ==> FirstAgent(ps) == |ps|
    ensures Processed(ps, projectFileExists) == |ps|
  {
  }

  /** With the project file present, at most one entry is added, the first
      non-human participant's; without it, every participant is processed. */
  lemma {:induction false} ProjectFileStopsAfterFirst(ps: seq<Participant>, context: string, decide: Decider, generate: Generator)
    ensures Processed(ps, false) == |ps|
    ensures var es := Entries(ps[..Processed(ps, true)], context, decide, generate);
      if FirstAgent(ps) < |ps| then es == [Respond(ps[FirstAgent(ps)].role, context, decide, generate)]
      else es == []
  {
    var n := FirstAgent(ps);
    HumansAddNothing(ps, n, context, decide, generate);
    if n < |ps| {
      EntriesStep(ps, n, context, decide, generate);
    }
  }

  /** The loop body of `process_agent_responses` for the non-human
      participant `i`: it decides on the context; when it responds, the
      response is generated and delivered; the entry is returned. */
  method Participate(ps: seq<Participant>, i: nat, context: string, model: Model, generate: Generator,
                     ghost decide: Decider, ghost hs: Histories, ghost done: seq<Entry>)
    returns (entry: Entry)
    requires Decides(decide, model)
    requires |hs| == |ps| && i < |ps| && !ps[i].isHuman
    requires Distinct(ps) && Holds(ps, Grown(hs, ps, done))
    modifies Managers(ps)
    ensures entry == Respond(ps[i].role, context, decide, generate)
    ensures Holds(ps, Grown(hs, ps, done + [entry]))
  {
    var role := ps[i].role;
    var decision := LegacyAgent.ShouldRespond(role, context, model);
    var shouldRespond, thoughtProcess := decision.0, decision.1;
    if shouldRespond {
      var response := generate(role, context);
      DeliverResponse(ps, role, response, Grown(hs, ps, done));
      entry := Entry(role, Some(response), thoughtProcess);
    } else {
      entry := Entry(role, None, thoughtProcess);
    }
    GrownStep(hs, ps, done, entry);
  }

  /** The page state: the active event and the conversation history. */
  class EventSession {
    var event: Option<Event>
    var history: seq<Entry>

    constructor ()
      ensures event == None && history == []
    {
      event := None;
      history := [];
    }

    /** `process_agent_responses`: nothing without an active event; else
        the context of the history so far is computed once, and the
        participants take their turns on it. */
    method ProcessAgentResponses(model: Model, generate: Generator, projectFileExists: bool,
                                 ghost decide: Decider, ghost hs: Histories)
      requires Decides(decide, model)
      requires event.Some? ==> Distinct(event.value.participants) && Holds(event.value.participants, hs)
      modifies this, if event.Some? then Managers(event.value.participants) else {}
      ensures event == old(event)
      ensures old(event).None? ==> history == old(history)
      ensures old(event).Some? ==>
        var ps := event.value.participants;
        var entries := Entries(ps[..Processed(ps, projectFileExists)], Context(old(history)), decide, generate);
        && history == old(history) + entries
        && Holds(ps, Grown(hs, ps, entries))
    {
      if event.None? {
        return;
      }
      var participants := event.value.participants;
      var context := Context(history);
      RespondInOrder(participants, context, model, generate, projectFileExists, decide, hs);
    }

    /** The participant loop of `process_agent_responses`: every non-human
        participant in order decides on the context, adds one entry, and has
        its response (if any) delivered to the participants of other roles.
        With the project file present, the write that follows the first
        non-human participant raises and nobody after it is processed. */
    method RespondInOrder(participants: seq<Participant>, context: string, model: Model, generate: Generator,
                          projectFileExists: bool, ghost decide: Decider, ghost hs: Histories)
      requires Decides(decide, model)
      requires Distinct(participants) && Holds(participants, hs)
      modifies `history, Managers(participants)
      ensures var entries := Entries(participants[..Processed(participants, projectFileExists)], context, decide, generate);
        && history == old(history) + entries
        && Holds(participants, Grown(hs, participants, entries))
    {
      ghost var start := history;
      for i := 0 to |participants|
        invariant history == start + Entries(participants[..i], context, decide, generate)
        invariant Holds(participants, Grown(hs, participants, Entries(participants[..i], context, decide, generate)))
        invariant projectFileExists ==> i <= FirstAgent(participants)
      {
        ghost var done := Entries(participants[..i], context, decide, generate);
        EntriesStep(participants, i, context, decide, generate);
        var agent := participants[i];
        if agent.isHuman {
          assert Entries(participants[..i + 1], context, decide, generate) == done;
          continue;
        }
        var entry := Participate(participants, i, context, model, generate, decide, hs, done);
        history := history + [entry];
        ConcatAssoc(start, done, [entry]);
        assert Entries(participants[..i + 1], context, decide, generate) == done + [entry];
        if projectFileExists {
          ProcessedStop(participants, i);
          assert participants[..Processed(participants, projectFileExists)] == participants[..i + 1];
          return;
        }
      }
      ProcessedAll(participants, projectFileExists);
      assert participants[..Processed(participants, projectFileExists)] == participants;
    }
  }
}

/** The sprint-planning loop: every round all agents hear the planning text
    from the product owner, then each agent in the fixed order thinks,
    speaks, and has its response delivered to every other agent. */
module SprintPlanning {
  import opened Wrappers
  import opened Text
  import opened ChatTemplate
  import opened Decision
  import opened CoreAgent

  /** The role under which the planning text is delivered. */
  const SeedRole := "product_owner"

  /** The histories of all agents, in the fixed order. */
  type Histories = seq<seq<Message>>

  /** What one agent produced in its turn: its reasoning and its response. */
  datatype Utterance = Utterance(thoughts: string, response: string)

  /** The state a run of the loop reaches, what was said on the way, and
      whether it got through (a failed model request raises and ends it). */
  datatype Run = Run(histories: Histories, said: seq<Utterance>, completed: bool)

  /** How the model answers an agent: its reasoning, given the agent's
      history and role, and its response, given the history; `None` is a
      failed request. */
  datatype Replies = Replies(think: (seq<Message>, string) -> Option<string>, speak: seq<Message> -> Option<string>)

  /** `replies` are the answers of the agents of `src/core` to `model`:
      the reasoning is the stripped reply to the decision prompt, the response
      the stripped reply to the rendered history. */
  ghost predicate Answers(replies: Replies, model: Model)
  {
    && (forall h, role {:trigger DecisionPrompt(h, role)} ::
          replies.think(h, role) == PromptModel(model, DecisionPrompt(h, role)))
    && (forall h {:trigger Render(h)} :: replies.speak(h) == PromptModel(model, Render(h)))
  }

  /** The answers built from the model itself. */
  function AgentReplies(model: Model): Replies
  {
    Replies((h, role) => PromptModel(model, DecisionPrompt(h, role)), h => PromptModel(model, Render(h)))
  }

  /** Every model has its answers. */
  lemma AgentRepliesAnswer(model: Model)
    ensures Answers(AgentReplies(model), model)
  {
  }

  /** The result of one agent's turn. */
  datatype TurnResult = TurnDone(histories: Histories, said: Utterance) | TurnAborted(histories: Histories)

  /** Every agent's history after the message `m` was delivered to the
      first `n` agents. */
  function SeedFirst(hs: Histories, m: Message, n: nat): (r: Histories)
    ensures |r| == |hs|
  {
    seq(|hs|, i requires 0 <= i < |hs| => if i < n then hs[i] + [m] else hs[i])
  }

  /** The histories after the message `m` of agent `k` was delivered to
      the agents before position `n` other than `k` itself. */
  function BroadcastFirst(hs: Histories, k: nat, m: Message, n: nat): (r: Histories)
    ensures |r| == |hs|
  {
    seq(|hs|, i requires 0 <= i < |hs| => if i < n && i != k then hs[i] + [m] else hs[i])
  }

  /** What a completed turn of agent `k` leaves behind: the reasoning and
      the response in the speaker's own history, the response under the
      speaker's role in everybody else's. */
  function Deliver(hs: Histories, roles: seq<string>, k: nat, u: Utterance): (r: Histories)
    requires |hs| == |roles| && k < |roles|
    ensures |r| == |hs|
  {
    var thought := hs[k := hs[k] + [Message(ThoughtsRole(roles[k]), u.thoughts)]];
    var spoken := thought[k := thought[k] + [Message(roles[k], u.response)]];
    BroadcastFirst(spoken, k, Message(roles[k], Strip(u.response)), |hs|)
  }

  /** One turn of agent `k`: `should_respond` (its decision is ignored, since
      the tuple it returns is always true), then `generate_response`, then the
      broadcast to every other agent. */
  function Turn(hs: Histories, roles: seq<string>, k: nat, replies: Replies): (r: TurnResult)
    requires |hs| == |roles| && k < |roles|
    ensures |r.histories| == |hs|
  {
    match replies.think(hs[k], roles[k])
    case None => TurnAborted(hs)
    case Some(thoughts) =>
      var thought := hs[k := hs[k] + [Message(ThoughtsRole(roles[k]), thoughts)]];
      match replies.speak(thought[k])
      case None => TurnAborted(thought)
      case Some(response) => TurnDone(Deliver(hs, roles, k, Utterance(thoughts, response)), Utterance(thoughts, response))
  }

  /** The turns of the first `n` agents, in order, stopping at a failure. */
  function Turns(hs: Histories, roles: seq<string>, replies: Replies, n: nat): (r: Run)
    requires |hs| == |roles| && n <= |roles|
    ensures |r.histories| == |hs|
    ensures r.completed ==> |r.said| == n
  {
    if n == 0 then Run(hs, [], true)
    else
      var prev := Turns(hs, roles, replies, n - 1);
      if !prev.completed then prev
      else match Turn(prev.histories, roles, n - 1, replies)
        case TurnAborted(h) => Run(h, prev.said, false)
        case TurnDone(h, u) => Run(h, prev.said + [u], true)
  }

  /** One round: the planning text to everybody, then every agent's turn. */
  function Round(hs: Histories, roles: seq<string>, seed: string, replies: Replies): (r: Run)
    requires |hs| == |roles|
    ensures |r.histories| == |hs|
  {
    Turns(SeedFirst(hs, Message(SeedRole, Strip(seed)), |hs|), roles, replies, |roles|)
  }

  /** `count` rounds, stopping at a failure. */
  function Rounds(hs: Histories, roles: seq<string>, seed: string, replies: Replies, count: nat): (r: Run)
    requires |hs| == |roles|
    ensures |r.histories| == |hs|
  {
    if count == 0 then Run(hs, [], true)
    else
      var prev := Rounds(hs, roles, seed, replies, count - 1);
      if !prev.completed then prev
      else
        var round := Round(prev.histories, roles, seed, replies);
        Run(round.histories, prev.said + round.said, round.completed)
  }

  /** What agent `i` hears of the turn of agent `k`: its own reasoning and
      response when `k` is itself, else only the response under the
      speaker's role. */
  function Heard(i: nat, roles: seq<string>, k: nat, u: Utterance): seq<Message>
    requires k < |roles|
  {
    if k == i then [Message(ThoughtsRole(roles[k]), u.thoughts), Message(roles[k], u.response)]
    else [Message(roles[k], Strip(u.response))]
  }

  /** What agent `i` hears of the turns `us` of the first agents, in order. */
  function View(i: nat, roles: seq<string>, us: seq<Utterance>): seq<Message>
    requires |us| <= |roles|
  {
    if us == [] then [] else View(i, roles, us[..|us| - 1]) + Heard(i, roles, |us| - 1, us[|us| - 1])
  }

  /** Delivery, agent by agent: each history gains what its agent hears of
      the turn. */
  lemma DeliverHeard(hs: Histories, roles: seq<string>, k: nat, u: Utterance)
    requires |hs| == |roles| && k < |roles|
    ensures forall i :: 0 <= i < |hs| ==> Deliver(hs, roles, k, u)[i] == hs[i] + Heard(i, roles, k, u)
  {
  }

  /** One turn, in closed form: when it completes, every agent's history
      gains exactly what that agent hears of it; either way histories only
      grow. */
  lemma TurnHeard(hs: Histories, roles: seq<string>, k: nat, replies: Replies)
    requires |hs| == |roles| && k < |roles|
    ensures var r := Turn(hs, roles, k, replies);
      && (r.TurnDone? ==>
        forall i :: 0 <= i < |hs| ==> r.histories[i] == hs[i] + Heard(i, roles, k, r.said))
      && forall i :: 0 <= i < |hs| ==> hs[i] <= r.histories[i]
  {
    var r := Turn(hs, roles, k, replies);
    if r.TurnDone? {
      DeliverHeard(hs, roles, k, r.said);
    }
  }

  lemma ViewStep(i: nat, roles: seq<string>, said: seq<Utterance>, u: Utterance)
    requires |said| < |roles|
    ensures View(i, roles, said + [u]) == View(i, roles, said) + Heard(i, roles, |said|, u)
  {
    var more := said + [u];
    assert more[..|more| - 1] == said;
  }

  /** One more turn extends every agent's view by what it hears of it. */
  lemma ViewSnoc(hs: Histories, before: Histories, after: Histories, roles: seq<string>, said: seq<Utterance>, u: Utterance)
    requires |hs| == |before| == |after| && |said| < |roles|
    requires forall i :: 0 <= i < |hs| ==> before[i] == hs[i] + View(i, roles, said)
    requires forall i :: 0 <= i < |hs| ==> after[i] == before[i] + Heard(i, roles, |said|, u)
    ensures forall i :: 0 <= i < |hs| ==> after[i] == hs[i] + View(i, roles, said + [u])
  {
    forall i | 0 <= i < |hs|
      ensures after[i] == hs[i] + View(i, roles, said + [u])
    {
      ViewStep(i, roles, said, u);
      ConcatAssoc(hs[i], View(i, roles, said), Heard(i, roles, |said|, u));
    }
  }

  /** The last of `n` completed turns was completed on top of the others. */
  lemma TurnsStep(hs: Histories, roles: seq<string>, replies: Replies, n: nat)
    requires |hs| == |roles| && 0 < n <= |roles|
    requires Turns(hs, roles, replies, n).completed
    ensures var prev := Turns(hs, roles, replies, n - 1);
      && prev.completed
      && var t := Turn(prev.histories, roles, n - 1, replies);
      && t.TurnDone?
      && Turns(hs, roles, replies, n) == Run(t.histories, prev.said + [t.said], true)
  {
  }

  /** Completed turns, in closed form: each agent's history is extended by
      exactly what it heard of each turn, in turn order. In particular a
      speaker never receives its own response a second time. */
  lemma {:induction false} TurnsHeard(hs: Histories, roles: seq<string>, replies: Replies, n: nat)
    requires |hs| == |roles| && n <= |roles|
    requires Turns(hs, roles, replies, n).completed
    ensures var r := Turns(hs, roles, replies, n);
      && |r.said| == n
      && forall i :: 0 <= i < |hs| ==> r.histories[i] == hs[i] + View(i, roles, r.said)
  {
    if n > 0 {
      var prev := Turns(hs, roles, replies, n - 1);
      TurnsStep(hs, roles, replies, n);
      TurnsHeard(hs, roles, replies, n - 1);
      var t := Turn(prev.histories, roles, n - 1, replies);
      TurnHeard(prev.histories, roles, n - 1, replies);
      ViewSnoc(hs, prev.histories, t.histories, roles, prev.said, t.said);
    }
  }

  /** How long what agent `i` heard is: one message per turn, plus its own
      reasoning if it had a turn. */
  lemma {:induction false} ViewLength(i: nat, roles: seq<string>, us: seq<Utterance>)
    requires |us| <= |roles|
    ensures |View(i, roles, us)| == |us| + (if i < |us| then 1 else 0)
  {
    if us != [] {
      ViewLength(i, roles, us[..|us| - 1]);
    }
  }

  /** A completed round, in closed form: the planning text first, then what
      the agent heard of every turn; so every history grows by the number of
      agents plus two. */
  lemma RoundHeard(hs: Histories, roles: seq<string>, seed: string, replies: Replies)
    requires |hs| == |roles|
    requires Round(hs, roles, seed, replies).completed
    ensures var r := Round(hs, roles, seed, replies);
      && |r.said| == |roles|
      && forall i :: 0 <= i < |hs| ==>
        && r.histories[i] == hs[i] + [Message(SeedRole, Strip(seed))] + View(i, roles, r.said)
        && |r.histories[i]| == |hs[i]| + |roles| + 2
  {
    var seeded := SeedFirst(hs, Message(SeedRole, Strip(seed)), |hs|);
    TurnsHeard(seeded, roles, replies, |roles|);
    var r := Round(hs, roles, seed, replies);
    forall i | 0 <= i < |hs|
      ensures |r.histories[i]| == |hs[i]| + |roles| + 2
    {
      ViewLength(i, roles, r.said);
    }
  }

  /** Histories only grow: whatever happens, every history before a run is
      a prefix of the same agent's history after it. */
  lemma {:induction false} TurnsAppendOnly(hs: Histories, roles: seq<string>, replies: Replies, n: nat)
    requires |hs| == |roles| && n <= |roles|
    ensures forall i :: 0 <= i < |hs| ==> hs[i] <= Turns(hs, roles, replies, n).histories[i]
  {
    if n > 0 {
      var prev := Turns(hs, roles, replies, n - 1);
      TurnsAppendOnly(hs, roles, replies, n - 1);
      if prev.completed {
        TurnHeard(prev.histories, roles, n - 1, replies);
      }
    }
  }

  lemma {:induction false} RoundsAppendOnly(hs: Histories, roles: seq<string>, seed: string, replies: Replies, count: nat)
    requires |hs| == |roles|
    ensures forall i :: 0 <= i < |hs| ==> hs[i] <= Rounds(hs, roles, seed, replies, count).histories[i]
  {
    if count > 0 {
      var prev := Rounds(hs, roles, seed, replies, count - 1);
      RoundsAppendOnly(hs, roles, seed, replies, count - 1);
      if prev.completed {
        TurnsAppendOnly(SeedFirst(prev.histories, Message(SeedRole, Strip(seed)), |hs|), roles, replies, |roles|);
      }
    }
  }

  /** Once a turn fails, the later turns of that round do not happen. */
  lemma {:induction false} TurnsStopAtFailure(hs: Histories, roles: seq<string>, replies: Replies, m: nat, n: nat)
    requires |hs| == |roles| && m <= n <= |roles|
    requires !Turns(hs, roles, replies, m).completed
    ensures Turns(hs, roles, replies, n) == Turns(hs, roles, replies, m)
  {
    if n > m {
      TurnsStopAtFailure(hs, roles, replies, m, n - 1);
    }
  }

  /** Once a round fails, no later round happens. */
  lemma {:induction false} RoundsStopAtFailure(hs: Histories, roles: seq<string>, seed: string, replies: Replies, m: nat, n: nat)
    requires |hs| == |roles| && m <= n
    requires !Rounds(hs, roles, seed, replies, m).completed
    ensures Rounds(hs, roles, seed, replies, n) == Rounds(hs, roles, seed, replies, m)
  {
    if n > m {
      RoundsStopAtFailure(hs, roles, seed, replies, m, n - 1);
    }
  }

  /** The roles of the agents, in order. */
  function Roles(agents: seq<Agent>): (r: seq<string>)
    ensures |r| == |agents|
    ensures forall i :: 0 <= i < |agents| ==> r[i] == agents[i].role
  {
    seq(|agents|, i requires 0 <= i < |agents| => agents[i].role)
  }

  /** The prompt managers of the agents. */
  ghost function Managers(agents: seq<Agent>): set<CorePrompt.PromptManager>
  {
    set i | 0 <= i < |agents| :: agents[i].promptManager
  }

  /** No two agents share a prompt manager. */
  ghost predicate Distinct(agents: seq<Agent>)
  {
    forall i, j :: 0 <= i < |agents| && 0 <= j < |agents| && agents[i].promptManager == agents[j].promptManager ==> i == j
  }

  /** The agents' histories are `hs`. */
  ghost predicate Holds(agents: seq<Agent>, hs: Histories)
    reads Managers(agents)
  {
    && |hs| == |agents|
    && forall i :: 0 <= i < |agents| ==> agents[i].promptManager.messages == hs[i]
  }

  /** One more agent seeded. */
  lemma SeedFirstStep(hs: Histories, m: Message, n: nat)
    requires n < |hs|
    ensures SeedFirst(hs, m, n + 1) == SeedFirst(hs, m, n)[n := SeedFirst(hs, m, n)[n] + [m]]
  {
  }

  /** One more agent reached by a broadcast: the speaker itself is skipped. */
  lemma BroadcastFirstStep(hs: Histories, k: nat, m: Message, n: nat)
    requires n < |hs|
    ensures n == k ==> BroadcastFirst(hs, k, m, n + 1) == BroadcastFirst(hs, k, m, n)
    ensures n != k ==>
      BroadcastFirst(hs, k, m, n + 1) == BroadcastFirst(hs, k, m, n)[n := BroadcastFirst(hs, k, m, n)[n] + [m]]
  {
  }

  /** The first loop of a round: the planning text to every agent. */
  method SeedRound(agents: seq<Agent>, seed: string, ghost hs: Histories)
    requires Distinct(agents) && Holds(agents, hs)
    modifies Managers(agents)
    ensures Holds(agents, SeedFirst(hs, Message(SeedRole, Strip(seed)), |hs|))
  {
    ghost var message := Message(SeedRole, Strip(seed));
    for i := 0 to |agents|
      invariant Holds(agents, SeedFirst(hs, message, i))
    {
      ghost var before := SeedFirst(hs, message, i);
      agents[i].AddObservedMessage(SeedRole, seed);
      forall j | 0 <= j < |agents| && j != i
        ensures agents[j].promptManager.messages == before[j]
      {
        assert agents[j].promptManager != agents[i].promptManager;
      }
      SeedFirstStep(hs, message, i);
    }
  }

  /** The response of agent `k` to every other agent; agents are told apart
      by identity. */
  method Broadcast(agents: seq<Agent>, k: nat, response: string, ghost hs: Histories)
    requires Distinct(agents) && Holds(agents, hs) && k < |agents|
    modifies Managers(agents)
    ensures Holds(agents, BroadcastFirst(hs, k, Message(agents[k].role, Strip(response)), |hs|))
  {
    var agent := agents[k];
    ghost var message := Message(agent.role, Strip(response));
    for j := 0 to |agents|
      invariant Holds(agents, BroadcastFirst(hs, k, message, j))
    {
      ghost var before := BroadcastFirst(hs, k, message, j);
      BroadcastFirstStep(hs, k, message, j);
      if agents[j] != agent {
        agents[j].AddObservedMessage(agent.role, response);
        forall m | 0 <= m < |agents| && m != j
          ensures agents[m].promptManager.messages == before[m]
        {
          assert agents[m].promptManager != agents[j].promptManager;
        }
      }
    }
  }

  /** `should_respond` of agent `k`, in terms of the agents' histories. */
  method Consider(agents: seq<Agent>, k: nat, model: Model, ghost replies: Replies, ghost hs: Histories) returns (thoughts: Thoughts)
    requires Answers(replies, model)
    requires Distinct(agents) && Holds(agents, hs) && k < |agents|
    modifies Managers(agents)
    ensures match replies.think(hs[k], agents[k].role)
      case None => thoughts == Failed && Holds(agents, hs)
      case Some(text) =>
        && thoughts == Decided(Decide(text), text)
        && Holds(agents, hs[k := hs[k] + [Message(ThoughtsRole(agents[k].role), text)]])
  {
    var agent := agents[k];
    assert agent.promptManager in Managers(agents);
    thoughts := agent.ShouldRespond(model);
    forall j | 0 <= j < |agents| && j != k
      ensures agents[j].promptManager.messages == hs[j]
    {
      assert agents[j].promptManager != agent.promptManager;
    }
  }

  /** `generate_response` of agent `k`, in terms of the agents' histories. */
  method Answer(agents: seq<Agent>, k: nat, model: Model, ghost replies: Replies, ghost hs: Histories) returns (response: Option<string>)
    requires Answers(replies, model)
    requires Distinct(agents) && Holds(agents, hs) && k < |agents|
    modifies Managers(agents)
    ensures response == replies.speak(hs[k])
    ensures response.None? ==> Holds(agents, hs)
    ensures response.Some? ==> Holds(agents, hs[k := hs[k] + [Message(agents[k].role, response.value)]])
  {
    var agent := agents[k];
    assert agent.promptManager in Managers(agents);
    response := agent.GenerateResponse(model);
    assert response == replies.speak(hs[k]);
    forall j | 0 <= j < |agents| && j != k
      ensures agents[j].promptManager.messages == hs[j]
    {
      assert agents[j].promptManager != agent.promptManager;
    }
  }

  /** The turn of agent `k`: it thinks (the decision is not consulted, since
      the returned tuple is always true), speaks, and is heard by the rest;
      `false` when a model request failed, which the source turns into an
      exception ending the loop. */
  method TakeTurn(agents: seq<Agent>, k: nat, model: Model, ghost replies: Replies, ghost hs: Histories) returns (done: bool)
    requires Answers(replies, model)
    requires Distinct(agents) && Holds(agents, hs) && k < |agents|
    modifies Managers(agents)
    ensures var t := Turn(hs, Roles(agents), k, replies);
      && done == t.TurnDone?
      && Holds(agents, t.histories)
  {
    ghost var roles := Roles(agents);
    var thoughts := Consider(agents, k, model, replies, hs);
    if thoughts.Failed? {
      return false;
    }
    ghost var thought := hs[k := hs[k] + [Message(ThoughtsRole(roles[k]), thoughts.reasoning)]];
    var response := Answer(agents, k, model, replies, thought);
    if response.None? {
      return false;
    }
    ghost var u := Utterance(thoughts.reasoning, response.value);
    ghost var spoken := thought[k := thought[k] + [Message(roles[k], response.value)]];
    Broadcast(agents, k, response.value, spoken);
    assert Turn(hs, roles, k, replies) == TurnDone(Deliver(hs, roles, k, u), u);
    done := true;
  }

  /** One pass of the `while True` body of the sprint-planning loop: the
      planning text to every agent, then the agents' turns in order; `false`
      when a model request failed. */
  method RunRound(agents: seq<Agent>, seed: string, model: Model, ghost replies: Replies, ghost hs: Histories) returns (completed: bool)
    requires Answers(replies, model)
    requires Distinct(agents) && Holds(agents, hs)
    modifies Managers(agents)
    ensures var r := Round(hs, Roles(agents), seed, replies);
      && completed == r.completed
      && Holds(agents, r.histories)
  {
    ghost var roles := Roles(agents);
    ghost var seeded := SeedFirst(hs, Message(SeedRole, Strip(seed)), |hs|);
    SeedRound(agents, seed, hs);
    for k := 0 to |agents|
      invariant Turns(seeded, roles, replies, k).completed
      invariant Holds(agents, Turns(seeded, roles, replies, k).histories)
    {
      var done := TakeTurn(agents, k, model, replies, Turns(seeded, roles, replies, k).histories);
      if !done {
        TurnsStopAtFailure(seeded, roles, replies, k + 1, |agents|);
        return false;
      }
    }
    return true;
  }

  /** The `while True` loop, cut off after `rounds` passes; `false` when a
      model request failed, which in the source raises out of the loop. */
  method RunRounds(agents: seq<Agent>, seed: string, rounds: nat, model: Model, ghost replies: Replies, ghost hs: Histories)
    returns (completed: bool)
    requires Answers(replies, model)
    requires Distinct(agents) && Holds(agents, hs)
    modifies Managers(agents)
    ensures var r := Rounds(hs, Roles(agents), seed, replies, rounds);
      && completed == r.completed
      && Holds(agents, r.histories)
  {
    ghost var roles := Roles(agents);
    for n := 0 to rounds
      invariant Rounds(hs, roles, seed, replies, n).completed
      invariant Holds(agents, Rounds(hs, roles, seed, replies, n).histories)
    {
      var done := RunRound(agents, seed, model, replies, Rounds(hs, roles, seed, replies, n).histories);
      if !done {
        RoundsStopAtFailure(hs, roles, seed, replies, n + 1, rounds);
        return false;
      }
    }
    return true;
  }
}

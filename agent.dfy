/**
 * The agent loop itself (`AgentLoop` in nanobot/agent/loop.py): one inbound
 * message is turned into at most one outbound message, while the policy
 * counters, the de-duplicated warning set and the session histories change.
 *
 * The pure functions `UserTurn`, `SystemTurn` and `Turn` say what one message
 * does to an `AgentState`; the methods of the class `AgentLoop` do it step by
 * step on the object's fields and are proved to agree with them.
 */
module Agent {
  import opened Wrappers
  import opened Strings
  import opened Messages
  import opened Tools
  import opened Policy
  import opened Conversation
  import Weather

  /** One stored turn of a session: `{"role": role, "content": content}`. */
  datatype HistoryEntry = HistoryEntry(role: string, content: string)

  /**
   * The context builder: the conversation handed to the model for a session
   * history, the current message, the persona text, the media and the chat.
   */
  type ContextBuilder = (seq<HistoryEntry>, string, Option<string>, seq<string>, string, string) -> seq<ChatMessage>

  /** The collaborators an agent loop is constructed with. */
  datatype Env = Env(
    maxIterations: nat,
    provider: Provider,
    registry: Registry,
    engine: Option<PolicyEngine>,
    buildMessages: ContextBuilder,
    weather: Weather.WeatherService)

  const DroppedByAccess := "dropped_by_access"
  const DroppedByReply := "dropped_by_reply"
  const BlockedToolCall := "blocked_tool_call"

  /** The reply when the model gives no final text. */
  const NoResponse := "I've completed processing but have no response to give."

  /** The reply to a system message when the model gives no final text. */
  const BackgroundDone := "Background task completed."

  /** `policy_counters`: the dictionary with exactly the keys above. */
  datatype Counters = Counters(droppedByAccess: nat, droppedByReply: nat, blockedToolCall: nat) {
    function AsMap(): (m: map<string, nat>)
      ensures m.Keys == {DroppedByAccess, DroppedByReply, BlockedToolCall}
      ensures m[DroppedByAccess] == droppedByAccess && m[DroppedByReply] == droppedByReply
      ensures m[BlockedToolCall] == blockedToolCall
    {
      map[DroppedByAccess := droppedByAccess, DroppedByReply := droppedByReply, BlockedToolCall := blockedToolCall]
    }
  }

  /** The history of a session; a session seen for the first time is empty. */
  function History(sessions: map<string, seq<HistoryEntry>>, key: string): seq<HistoryEntry> {
    if key in sessions then sessions[key] else []
  }

  /** `session.add_message("user", ...)`, `session.add_message("assistant", ...)` and saving the session. */
  function Record(sessions: map<string, seq<HistoryEntry>>, key: string, user: string, assistant: string):
    (r: map<string, seq<HistoryEntry>>)
    ensures History(r, key) == History(sessions, key) + [HistoryEntry("user", user), HistoryEntry("assistant", assistant)]
    ensures forall k :: k != key ==> History(r, k) == History(sessions, k)
    ensures r.Keys == sessions.Keys + {key}
  {
    sessions[key := History(sessions, key) + [HistoryEntry("user", user), HistoryEntry("assistant", assistant)]]
  }

  /** What the agent remembers between messages. */
  datatype AgentState = AgentState(
    counters: Counters,
    warned: set<string>,
    sessions: map<string, seq<HistoryEntry>>)

  /** The outcome of one message: the outbound message, if any, the new state, and how often the model was asked. */
  datatype TurnResult = TurnResult(out: Option<OutboundMessage>, state: AgentState, asked: nat)

  /** `set(self.tools.tool_names)`. */
  function DefaultAllowed(env: Env): set<string> {
    set n | n in env.registry.toolNames
  }

  /** The policy decision for a message. */
  function DecisionFor(env: Env, msg: InboundMessage): PolicyDecision {
    Decide(env.engine, DefaultAllowed(env), msg)
  }

  /** The loop of a user turn: the allowed tool schemas are offered and the allow-list gates every call. */
  function UserLoopEnv(env: Env, d: PolicyDecision): LoopEnv {
    LoopEnv(env.provider, env.registry.execute, ToolDefinitions(env.registry.definitions, d.allowedTools),
            AllowList(d.allowedTools))
  }

  /** The conversation a user turn starts from. */
  function UserContext(env: Env, st: AgentState, msg: InboundMessage, d: PolicyDecision): seq<ChatMessage> {
    env.buildMessages(History(st.sessions, msg.SessionKey()), msg.content, PersonaText(env.engine, d),
                      msg.media, msg.channel, msg.chatId)
  }

  function UserLoop(env: Env, st: AgentState, msg: InboundMessage, d: PolicyDecision): LoopOutcome {
    RunLoop(UserLoopEnv(env, d), Start(UserContext(env, st, msg, d)), env.maxIterations)
  }

  /**
   * What `_process_message(msg)` does once the policy lets `msg` through with
   * decision `d`: the weather fast path, else the provider and tool loop; the
   * exchange is recorded in the message's session either way.
   */
  function Answer(env: Env, st: AgentState, msg: InboundMessage, d: PolicyDecision): (t: TurnResult)
    ensures t.asked <= env.maxIterations
    ensures t.state.warned == st.warned
  {
    var key := msg.SessionKey();
    match Weather.FastWeather(env.weather, msg.content)
    case Some(reply) =>
      TurnResult(Some(OutboundMessage(msg.channel, msg.chatId, reply)),
                 st.(sessions := Record(st.sessions, key, msg.content, reply)), 0)
    case None =>
      var loop := UserLoop(env, st, msg, d);
      var final := loop.final.GetOr(NoResponse);
      TurnResult(Some(OutboundMessage(msg.channel, msg.chatId, final)),
                 AgentState(st.counters.(blockedToolCall := st.counters.blockedToolCall + loop.state.blocked), st.warned,
                            Record(st.sessions, key, msg.content, final)),
                 |loop.state.prompts|)
  }

  /** `_process_message(msg)` for a message from a chat channel. */
  function UserTurn(env: Env, st: AgentState, msg: InboundMessage): (t: TurnResult)
    ensures t.asked <= env.maxIterations
    ensures t.state.warned == Evaluate(env.engine, DefaultAllowed(env), msg, st.warned).warned
  {
    var ev := Evaluate(env.engine, DefaultAllowed(env), msg, st.warned);
    var d := ev.decision;
    if !d.acceptMessage then
      TurnResult(None, AgentState(st.counters.(droppedByAccess := st.counters.droppedByAccess + 1), ev.warned, st.sessions), 0)
    else if !d.shouldRespond then
      TurnResult(None, AgentState(st.counters.(droppedByReply := st.counters.droppedByReply + 1), ev.warned, st.sessions), 0)
    else Answer(env, st.(warned := ev.warned), msg, d)
  }

  /** The loop of a system turn: every registered schema is offered and no call is gated. */
  function SystemLoopEnv(env: Env): LoopEnv {
    LoopEnv(env.provider, env.registry.execute, env.registry.definitions, Unchecked)
  }

  /** The conversation a system turn starts from, in the origin's session and chat. */
  function SystemContext(env: Env, st: AgentState, msg: InboundMessage): seq<ChatMessage> {
    var origin := ParseOrigin(msg.chatId);
    env.buildMessages(History(st.sessions, OriginKey(msg.chatId)), msg.content, None, [], origin.0, origin.1)
  }

  function SystemLoop(env: Env, st: AgentState, msg: InboundMessage): LoopOutcome {
    RunLoop(SystemLoopEnv(env), Start(SystemContext(env, st, msg)), env.maxIterations)
  }

  /** The user entry stored for a system message. */
  function SystemNote(msg: InboundMessage): string {
    "[System: " + msg.senderId + "] " + msg.content
  }

  /** `_process_system_message(msg)`: a subagent announcement answered in the chat it names. */
  function SystemTurn(env: Env, st: AgentState, msg: InboundMessage): (t: TurnResult)
    ensures t.asked <= env.maxIterations
    ensures t.state.counters == st.counters && t.state.warned == st.warned
  {
    var origin := ParseOrigin(msg.chatId);
    var loop := SystemLoop(env, st, msg);
    var final := loop.final.GetOr(BackgroundDone);
    TurnResult(Some(OutboundMessage(origin.0, origin.1, final)),
               st.(sessions := Record(st.sessions, OriginKey(msg.chatId), SystemNote(msg), final)),
               |loop.state.prompts|)
  }

  /** `_process_message(msg)`: system messages are routed to their origin, all others go through policy. */
  function Turn(env: Env, st: AgentState, msg: InboundMessage): (t: TurnResult)
    ensures t.asked <= env.maxIterations
  {
    if msg.channel == SystemChannel then SystemTurn(env, st, msg) else UserTurn(env, st, msg)
  }

  /** The message `process_direct(content, channel=..., chat_id=...)` hands to `_process_message`. */
  function DirectMessage(content: string, channel: string, chatId: string): InboundMessage {
    InboundMessage(channel, "user", chatId, content, [], map[])
  }

  /** `process_direct`: the reply text, or `""` when the message draws no reply. */
  function DirectReply(t: TurnResult): string {
    if t.out.Some? then t.out.value.content else ""
  }

  // ---------------------------------------------------------------------------
  // What one turn does

  /**
   * The policy gate: a user message draws no reply exactly when the policy
   * refuses it or says not to respond. A refused message bumps
   * `dropped_by_access`, one not to respond to bumps `dropped_by_reply`;
   * either way no other counter moves, no session changes and the model is
   * never asked.
   */
  lemma UserTurnGate(env: Env, st: AgentState, msg: InboundMessage)
    ensures var t := UserTurn(env, st, msg);
      var d := DecisionFor(env, msg);
      (t.out.None? <==> !d.acceptMessage || !d.shouldRespond)
      && (!d.acceptMessage ==> t.state.counters == st.counters.(droppedByAccess := st.counters.droppedByAccess + 1))
      && (d.acceptMessage && !d.shouldRespond ==>
            t.state.counters == st.counters.(droppedByReply := st.counters.droppedByReply + 1))
      && (t.out.None? ==> t.state.sessions == st.sessions && t.asked == 0)
  {
  }

  /**
   * A reply to a user message goes back to the chat it came from, and the
   * message's session grows by exactly the user's text and the reply, in that
   * order; every other session and both drop counters stay as they were.
   */
  lemma UserTurnReply(env: Env, st: AgentState, msg: InboundMessage)
    ensures var t := UserTurn(env, st, msg);
      t.out.Some? ==>
        t.out.value.channel == msg.channel && t.out.value.chatId == msg.chatId
        && History(t.state.sessions, msg.SessionKey()) == History(st.sessions, msg.SessionKey())
             + [HistoryEntry("user", msg.content), HistoryEntry("assistant", t.out.value.content)]
        && (forall k :: k != msg.SessionKey() ==> History(t.state.sessions, k) == History(st.sessions, k))
        && t.state.counters.droppedByAccess == st.counters.droppedByAccess
        && t.state.counters.droppedByReply == st.counters.droppedByReply
  {
  }

  /**
   * The weather fast path: an accepted message the fast path answers is
   * replied to with that answer, the model is never asked and no tool call is
   * counted.
   */
  lemma UserTurnFastPath(env: Env, st: AgentState, msg: InboundMessage)
    requires DecisionFor(env, msg).acceptMessage && DecisionFor(env, msg).shouldRespond
    requires Weather.FastWeather(env.weather, msg.content).Some?
    ensures var t := UserTurn(env, st, msg);
      t.out == Some(OutboundMessage(msg.channel, msg.chatId, Weather.FastWeather(env.weather, msg.content).value))
      && t.asked == 0 && t.state.counters == st.counters
  {
  }

  /**
   * Otherwise the model is asked at least once (when iterations are allowed):
   * the reply is its final text, or the fallback text when it gave none, and
   * `blocked_tool_call` grows by exactly the calls outside the allowed tools
   * over all the model's responses.
   */
  lemma UserTurnLoop(env: Env, st: AgentState, msg: InboundMessage)
    requires DecisionFor(env, msg).acceptMessage && DecisionFor(env, msg).shouldRespond
    requires Weather.FastWeather(env.weather, msg.content).None?
    ensures var t := UserTurn(env, st, msg);
      var d := DecisionFor(env, msg);
      var loop := UserLoop(env, st, msg, d);
      t.out.Some? && t.out.value.content == (if loop.final.Some? then loop.final.value else NoResponse)
      && (env.maxIterations > 0 ==> t.asked >= 1)
      && t.state.counters.blockedToolCall ==
           st.counters.blockedToolCall + BlockedOver(UserLoopEnv(env, d), loop.state.prompts, 0)
  {
    var d := DecisionFor(env, msg);
    LoopBlocked(UserLoopEnv(env, d), Start(UserContext(env, st, msg, d)), env.maxIterations);
  }

  /**
   * A tool outside the decision's allowed tools is never executed: the tools
   * the loop of a user turn runs are exactly the allowed calls of each
   * response, in order.
   */
  lemma UserTurnExecutesOnlyAllowed(env: Env, st: AgentState, msg: InboundMessage)
    ensures var d := DecisionFor(env, msg);
      var loop := UserLoop(env, st, msg, d);
      loop.state.executed == ExecutedOver(UserLoopEnv(env, d), loop.state.prompts, 0)
      && forall c :: c in loop.state.executed ==> c.name in d.allowedTools
  {
    var d := DecisionFor(env, msg);
    var start := Start(UserContext(env, st, msg, d));
    LoopExecuted(UserLoopEnv(env, d), start, env.maxIterations);
    LoopExecutesOnlyPermitted(UserLoopEnv(env, d), start, env.maxIterations);
  }

  /**
   * A model that keeps asking for tools is cut off: it is asked exactly
   * `max_iterations` times and the reply is the fallback text.
   */
  lemma UserTurnCapped(env: Env, st: AgentState, msg: InboundMessage)
    requires DecisionFor(env, msg).acceptMessage && DecisionFor(env, msg).shouldRespond
    requires Weather.FastWeather(env.weather, msg.content).None?
    requires forall m, tools :: env.provider(m, tools).HasToolCalls()
    ensures var t := UserTurn(env, st, msg);
      t.out.Some? && t.out.value.content == NoResponse && t.asked == env.maxIterations
  {
    var d := DecisionFor(env, msg);
    LoopCapped(UserLoopEnv(env, d), Start(UserContext(env, st, msg, d)), env.maxIterations);
  }

  /**
   * Without a policy engine every message is answered and the allow-list is
   * the set of registered tool names: a call is executed exactly when it names
   * a registered tool, and a call to any other name is refused and counted as
   * a blocked tool call.
   */
  lemma DisabledPolicyGate(env: Env, msg: InboundMessage, name: string)
    requires env.engine.None?
    ensures DecisionFor(env, msg).acceptMessage && DecisionFor(env, msg).shouldRespond
    ensures DecisionFor(env, msg).reason == DisabledReason
    ensures Permits(UserLoopEnv(env, DecisionFor(env, msg)).gate, name) <==> name in env.registry.toolNames
  {
  }

  /**
   * A system message is answered in the chat its chat id names, its origin
   * session records `"[System: <sender>] <content>"` and the reply, no other
   * session changes, and the counters and warnings are left alone; a model
   * cut off by the cap yields `"Background task completed."`.
   */
  lemma SystemTurnSpec(env: Env, st: AgentState, msg: InboundMessage)
    ensures var t := SystemTurn(env, st, msg);
      var origin := ParseOrigin(msg.chatId);
      t.out.Some? && t.out.value.channel == origin.0 && t.out.value.chatId == origin.1
      && History(t.state.sessions, OriginKey(msg.chatId)) == History(st.sessions, OriginKey(msg.chatId))
           + [HistoryEntry("user", SystemNote(msg)), HistoryEntry("assistant", t.out.value.content)]
      && (forall k :: k != OriginKey(msg.chatId) ==> History(t.state.sessions, k) == History(st.sessions, k))
      && (SystemLoop(env, st, msg).final.None? ==> t.out.value.content == BackgroundDone)
  {
  }

  /** A system message whose chat id has no `:` is answered on the `cli` channel, in session `cli:<chat_id>`. */
  lemma SystemTurnFallbackOrigin(env: Env, st: AgentState, msg: InboundMessage)
    requires ':' !in msg.chatId
    ensures var t := SystemTurn(env, st, msg);
      t.out.Some? && t.out.value.channel == "cli" && t.out.value.chatId == msg.chatId
      && History(t.state.sessions, "cli:" + msg.chatId) == History(st.sessions, "cli:" + msg.chatId)
           + [HistoryEntry("user", SystemNote(msg)), HistoryEntry("assistant", t.out.value.content)]
  {
    OriginKeyOf(msg.chatId);
  }

  // ---------------------------------------------------------------------------
  // The object

  class AgentLoop {
    const maxIterations: nat
    const provider: Provider
    const registry: Registry
    const policyEngine: Option<PolicyEngine>
    const buildMessages: ContextBuilder
    const weather: Weather.WeatherService

    var policyCounters: Counters
    var warnedMissingMention: set<string>
    var sessions: map<string, seq<HistoryEntry>>

    function Environment(): Env {
      Env(maxIterations, provider, registry, policyEngine, buildMessages, weather)
    }

    function State(): AgentState
      reads this
    {
      AgentState(policyCounters, warnedMissingMention, sessions)
    }

    /** `sessions` is whatever the injected or on-disk `SessionManager` already holds. */
    constructor (maxIterations: nat, provider: Provider, registry: Registry, policyEngine: Option<PolicyEngine>,
                 buildMessages: ContextBuilder, weather: Weather.WeatherService,
                 sessions: map<string, seq<HistoryEntry>>)
      ensures this.maxIterations == maxIterations && this.registry == registry
      ensures this.provider == provider && this.policyEngine == policyEngine
      ensures this.buildMessages == buildMessages && this.weather == weather
      ensures policyCounters == Counters(0, 0, 0)
      ensures warnedMissingMention == {} && this.sessions == sessions
    {
      this.maxIterations := maxIterations;
      this.provider := provider;
      this.registry := registry;
      this.policyEngine := policyEngine;
      this.buildMessages := buildMessages;
      this.weather := weather;
      policyCounters := Counters(0, 0, 0);
      warnedMissingMention := {};
      this.sessions := sessions;
    }

    /** `_policy_decision(msg)`: the decision, remembering the chat when the warning applies. */
    method PolicyDecide(msg: InboundMessage) returns (d: PolicyDecision)
      modifies this`warnedMissingMention
      ensures d == DecisionFor(Environment(), msg)
      ensures warnedMissingMention ==
        Evaluate(policyEngine, DefaultAllowed(Environment()), msg, old(warnedMissingMention)).warned
    {
      var defaultAllowed := set n | n in registry.toolNames;
      d := Decide(policyEngine, defaultAllowed, msg);
      if MissingMentionMeta(policyEngine, msg, d) {
        var key := WarningKey(msg);
        if key !in warnedMissingMention {
          warnedMissingMention := warnedMissingMention + {key};
        }
      }
    }

    /**
     * The tool calls of one response: each is executed, or refused and counted
     * when the gate rejects it, and its result appended, in call order.
     */
    method DispatchToolCalls(messages: seq<ChatMessage>, calls: seq<ToolCall>, gate: Gate,
                             ghost env: LoopEnv) returns (result: seq<ChatMessage>, ghost executed: seq<ToolCall>)
      requires env.execute == registry.execute && env.gate == gate
      modifies this`policyCounters
      ensures result == messages + ToolResults(env, calls)
      ensures executed == Permitted(gate, calls)
      ensures policyCounters == old(policyCounters).(blockedToolCall := old(policyCounters).blockedToolCall + BlockedCount(gate, calls))
    {
      result := messages;
      executed := [];
      for i := 0 to |calls|
        invariant result == messages + ToolResults(env, calls[..i])
        invariant executed == Permitted(gate, calls[..i])
        invariant policyCounters == old(policyCounters).(blockedToolCall := old(policyCounters).blockedToolCall + BlockedCount(gate, calls[..i]))
      {
        var call := calls[i];
        var output: string;
        assert calls[..i + 1][..i] == calls[..i];
        if !Permits(gate, call.name) {
          policyCounters := policyCounters.(blockedToolCall := policyCounters.blockedToolCall + 1);
          output := BlockedMessage(call.name);
        } else {
          output := registry.execute(call.name, call.arguments);
          executed := executed + [call];
        }
        result := result + [ToolEntry(call.id, call.name, output)];
      }
      assert calls[..|calls|] == calls;
    }

    /** One tool-calling round: the model's message, then one result per call. */
    method ToolRound(messages: seq<ChatMessage>, response: Response, gate: Gate, ghost env: LoopEnv)
      returns (result: seq<ChatMessage>, ghost executed: seq<ToolCall>)
      requires env.execute == registry.execute && env.gate == gate
      modifies this`policyCounters
      ensures result == messages + RoundEntries(env, response)
      ensures executed == Permitted(gate, response.toolCalls)
      ensures policyCounters == old(policyCounters).(blockedToolCall := old(policyCounters).blockedToolCall + BlockedCount(gate, response.toolCalls))
    {
      result := messages + [AssistantEntry(response.content, response.toolCalls)];
      result, executed := DispatchToolCalls(result, response.toolCalls, gate, env);
    }

    /**
     * The provider and tool loop: at most `max_iterations` model calls, ending
     * on the first response without tool calls.
     */
    method RunToolLoop(initial: seq<ChatMessage>, tools: seq<ToolSchema>, gate: Gate)
      returns (final: Option<string>, ghost asked: nat, ghost executed: seq<ToolCall>)
      modifies this`policyCounters
      ensures var out := RunLoop(LoopEnv(provider, registry.execute, tools, gate), Start(initial), maxIterations);
        final == out.final && asked == |out.state.prompts| && executed == out.state.executed
        && policyCounters == old(policyCounters).(blockedToolCall := old(policyCounters).blockedToolCall + out.state.blocked)
    {
      ghost var env := LoopEnv(provider, registry.execute, tools, gate);
      ghost var target := RunLoop(env, Start(initial), maxIterations);
      ghost var st := Start(initial);
      var messages := initial;
      var iteration := 0;
      final := None;
      executed := [];
      while iteration < maxIterations
        invariant 0 <= iteration <= maxIterations
        invariant st.messages == messages && final.None?
        invariant |st.prompts| == iteration && st.executed == executed
        invariant RunLoop(env, st, maxIterations - iteration) == target
        invariant policyCounters == old(policyCounters).(blockedToolCall := old(policyCounters).blockedToolCall + st.blocked)
        decreases maxIterations - iteration
      {
        iteration := iteration + 1;
        var response := provider(messages, tools);
        if |response.toolCalls| > 0 {
          ghost var round;
          messages, round := ToolRound(messages, response, gate, env);
          executed := executed + round;
          st := Next(env, st, response);
        } else {
          final := response.content;
          st := st.(prompts := st.prompts + [st.messages]);
          break;
        }
      }
      asked := iteration;
    }

    /** `_process_message(msg)`. */
    method ProcessMessage(msg: InboundMessage) returns (response: Option<OutboundMessage>)
      modifies this
      ensures var t := Turn(Environment(), old(State()), msg);
        response == t.out && State() == t.state
    {
      if msg.channel == SystemChannel {
        response := ProcessSystemMessage(msg);
        return;
      }
      ghost var st := State();
      ghost var ev := Evaluate(policyEngine, DefaultAllowed(Environment()), msg, st.warned);
      assert Turn(Environment(), st, msg) == UserTurn(Environment(), st, msg);
      var decision := PolicyDecide(msg);
      assert decision == ev.decision && warnedMissingMention == ev.warned;
      assert State() == st.(warned := ev.warned);
      if !decision.acceptMessage {
        policyCounters := policyCounters.(droppedByAccess := policyCounters.droppedByAccess + 1);
        return None;
      }
      if !decision.shouldRespond {
        policyCounters := policyCounters.(droppedByReply := policyCounters.droppedByReply + 1);
        return None;
      }
      assert UserTurn(Environment(), st, msg) == Answer(Environment(), st.(warned := ev.warned), msg, decision);
      response := Respond(msg, decision);
    }

    /** The part of `_process_message(msg)` after the policy gate let `msg` through. */
    method Respond(msg: InboundMessage, decision: PolicyDecision) returns (response: Option<OutboundMessage>)
      modifies this`policyCounters, this`sessions
      ensures var t := Answer(Environment(), old(State()), msg, decision);
        response == t.out && State() == t.state
    {
      var key := msg.SessionKey();
      var personaText := PersonaText(policyEngine, decision);
      var fastWeather := Weather.FastWeather(weather, msg.content);
      if fastWeather.Some? {
        sessions := Record(sessions, key, msg.content, fastWeather.value);
        return Some(OutboundMessage(msg.channel, msg.chatId, fastWeather.value));
      }
      var messages := buildMessages(History(sessions, key), msg.content, personaText, msg.media,
                                    msg.channel, msg.chatId);
      var final, asked, executed := RunToolLoop(messages, ToolDefinitions(registry.definitions, decision.allowedTools),
                                      AllowList(decision.allowedTools));
      var finalContent := if final.Some? then final.value else NoResponse;
      sessions := Record(sessions, key, msg.content, finalContent);
      response := Some(OutboundMessage(msg.channel, msg.chatId, finalContent));
    }

    /** `_process_system_message(msg)`. */
    method ProcessSystemMessage(msg: InboundMessage) returns (response: Option<OutboundMessage>)
      modifies this
      ensures var t := SystemTurn(Environment(), old(State()), msg);
        response == t.out && State() == t.state
    {
      var originChannel, originChatId;
      if ':' in msg.chatId {
        var parts := SplitFirst(msg.chatId, ':');
        originChannel, originChatId := parts.0, parts.1;
      } else {
        originChannel, originChatId := "cli", msg.chatId;
      }
      var sessionKey := originChannel + ":" + originChatId;
      var messages := buildMessages(History(sessions, sessionKey), msg.content, None, [], originChannel, originChatId);
      var final, asked, executed := RunToolLoop(messages, registry.definitions, Unchecked);
      LoopUncheckedNeverBlocks(SystemLoopEnv(Environment()), Start(messages), maxIterations);
      var finalContent := if final.Some? then final.value else BackgroundDone;
      sessions := Record(sessions, sessionKey, "[System: " + msg.senderId + "] " + msg.content, finalContent);
      response := Some(OutboundMessage(originChannel, originChatId, finalContent));
    }

    /** `process_direct(content, session_key, channel, chat_id)`; the session key argument is unused. */
    method ProcessDirect(content: string, sessionKey: string := "cli:direct", channel: string := "cli",
                         chatId: string := "direct") returns (reply: string)
      modifies this
      ensures var t := Turn(Environment(), old(State()), DirectMessage(content, channel, chatId));
        reply == DirectReply(t) && State() == t.state
    {
      var msg := InboundMessage(channel, "user", chatId, content, [], map[]);
      var response := ProcessMessage(msg);
      reply := if response.Some? then response.value.content else "";
    }
  }
}

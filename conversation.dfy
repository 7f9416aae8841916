/**
 * The provider and tool loop of a turn: the model is asked with the
 * conversation so far and the offered tool schemas; while it answers with tool
 * calls, its message and one result per call (in call order) are appended and
 * it is asked again, at most `max_iterations` times; its first answer without
 * tool calls ends the turn.
 */
module Conversation {
  import opened Wrappers
  import opened Strings
  import opened Tools

  /** One entry of the conversation handed to the model. */
  datatype ChatMessage =
    | ContextEntry(role: string, content: string)
    | AssistantEntry(text: Option<string>, toolCalls: seq<ToolCall>)
    | ToolEntry(callId: string, name: string, result: string)

  /** A model response: its text (possibly absent) and the tool calls it asks for. */
  datatype Response = Response(content: Option<string>, toolCalls: seq<ToolCall>) {
    predicate HasToolCalls() {
      |toolCalls| > 0
    }
  }

  /** The model: its response to a conversation given the offered tool schemas. */
  type Provider = (seq<ChatMessage>, seq<ToolSchema>) -> Response

  /** What stays fixed during one loop: the model, tool execution, the offered schemas and the call gate. */
  datatype LoopEnv = LoopEnv(
    provider: Provider,
    execute: (string, string) -> string,
    tools: seq<ToolSchema>,
    gate: Gate)

  /** The result entry appended for one tool call. */
  function ToolEntryFor(env: LoopEnv, call: ToolCall): ChatMessage {
    ToolEntry(call.id, call.name, ResultFor(env.gate, env.execute, call))
  }

  /** The result entries appended for `calls`, in call order. */
  function ToolResults(env: LoopEnv, calls: seq<ToolCall>): (r: seq<ChatMessage>)
    ensures |r| == |calls|
    decreases |calls|
  {
    if |calls| == 0 then []
    else ToolResults(env, calls[..|calls| - 1]) + [ToolEntryFor(env, calls[|calls| - 1])]
  }

  /** One result per call, in call order: the `i`-th entry answers the `i`-th call. */
  lemma {:induction false} ToolResultsAt(env: LoopEnv, calls: seq<ToolCall>)
    ensures forall i :: 0 <= i < |calls| ==> ToolResults(env, calls)[i] == ToolEntryFor(env, calls[i])
    decreases |calls|
  {
    if |calls| > 0 {
      var init := calls[..|calls| - 1];
      ToolResultsAt(env, init);
      assert forall i :: 0 <= i < |init| ==> init[i] == calls[i];
    }
  }

  /** What one tool-calling round appends: the model's message, then one result per call. */
  function RoundEntries(env: LoopEnv, resp: Response): seq<ChatMessage> {
    [AssistantEntry(resp.content, resp.toolCalls)] + ToolResults(env, resp.toolCalls)
  }

  /**
   * The state the loop carries: the conversation, every conversation the model
   * was asked with (in order), the tool calls executed (in order), and how many
   * calls the gate rejected.
   */
  datatype LoopState = LoopState(
    messages: seq<ChatMessage>,
    prompts: seq<seq<ChatMessage>>,
    executed: seq<ToolCall>,
    blocked: nat)

  /** The state a loop starts from: the initial conversation, nothing asked, executed or rejected yet. */
  function Start(messages: seq<ChatMessage>): LoopState {
    LoopState(messages, [], [], 0)
  }

  /** How a loop ends: the final text (`None` when there is none) and the state. */
  datatype LoopOutcome = LoopOutcome(final: Option<string>, state: LoopState)

  /**
   * The state after a tool-calling round: the round's entries appended, the
   * prompt recorded, the permitted calls executed and the others counted.
   */
  function Next(env: LoopEnv, st: LoopState, resp: Response): LoopState {
    LoopState(st.messages + RoundEntries(env, resp), st.prompts + [st.messages],
              st.executed + Permitted(env.gate, resp.toolCalls),
              st.blocked + BlockedCount(env.gate, resp.toolCalls))
  }

  /** `fuel` more iterations of the loop from `st`. */
  function RunLoop(env: LoopEnv, st: LoopState, fuel: nat): (out: LoopOutcome)
    ensures |st.prompts| <= |out.state.prompts| <= |st.prompts| + fuel
    ensures fuel > 0 ==> |out.state.prompts| > |st.prompts|
    ensures out.state.prompts[..|st.prompts|] == st.prompts
    ensures st.blocked <= out.state.blocked
    decreases fuel
  {
    if fuel == 0 then LoopOutcome(None, st)
    else
      var resp := env.provider(st.messages, env.tools);
      if !resp.HasToolCalls() then LoopOutcome(resp.content, st.(prompts := st.prompts + [st.messages]))
      else
        var next := Next(env, st, resp);
        var out := RunLoop(env, next, fuel - 1);
        assert out.state.prompts[..|next.prompts|] == next.prompts;
        assert next.prompts[..|st.prompts|] == st.prompts;
        out
  }

  /** The response the model gives to the `k`-th prompt. */
  function ResponseTo(env: LoopEnv, prompts: seq<seq<ChatMessage>>, k: nat): Response
    requires k < |prompts|
  {
    env.provider(prompts[k], env.tools)
  }

  /** The model is first asked with the conversation as it stood when the loop began. */
  lemma LoopFirstPrompt(env: LoopEnv, st: LoopState, fuel: nat)
    requires fuel > 0
    ensures RunLoop(env, st, fuel).state.prompts[|st.prompts|] == st.messages
  {
    var out := RunLoop(env, st, fuel);
    var resp := env.provider(st.messages, env.tools);
    var asked := st.prompts + [st.messages];
    if resp.HasToolCalls() {
      var next := Next(env, st, resp);
      assert out == RunLoop(env, next, fuel - 1);
      assert out.state.prompts[..|asked|] == asked;
    }
    assert out.state.prompts[..|asked|] == asked;
  }

  /**
   * Between two consecutive prompts the model asked for tools, and the later
   * prompt is the earlier one plus the model's message and one result per call.
   */
  lemma {:induction false} LoopRounds(env: LoopEnv, st: LoopState, fuel: nat)
    ensures var ps := RunLoop(env, st, fuel).state.prompts;
      forall k :: |st.prompts| <= k < |ps| - 1 ==>
        ResponseTo(env, ps, k).HasToolCalls() &&
        ps[k + 1] == ps[k] + RoundEntries(env, ResponseTo(env, ps, k))
    decreases fuel
  {
    if fuel > 0 {
      var out := RunLoop(env, st, fuel);
      var resp := env.provider(st.messages, env.tools);
      var asked := st.prompts + [st.messages];
      var n := |st.prompts|;
      if resp.HasToolCalls() {
        var next := Next(env, st, resp);
        assert out == RunLoop(env, next, fuel - 1);
        var ps := out.state.prompts;
        LoopRounds(env, next, fuel - 1);
        assert ps[..|asked|] == asked;
        assert ps[n] == st.messages;
        if fuel > 1 {
          LoopFirstPrompt(env, next, fuel - 1);
          assert ps[n + 1] == next.messages;
        }
      }
    }
  }

  /**
   * The loop ends either on a response without tool calls, whose text is the
   * final text and whose prompt is the final conversation, or, with no final
   * text, after `fuel` tool-calling rounds.
   */
  lemma {:induction false} LoopEnd(env: LoopEnv, st: LoopState, fuel: nat)
    requires fuel > 0
    ensures var out := RunLoop(env, st, fuel);
      var last := ResponseTo(env, out.state.prompts, |out.state.prompts| - 1);
      (!last.HasToolCalls() ==> out.final == last.content &&
                                out.state.messages == out.state.prompts[|out.state.prompts| - 1]) &&
      (last.HasToolCalls() ==> out.final.None? && |out.state.prompts| == |st.prompts| + fuel)
    decreases fuel
  {
    var out := RunLoop(env, st, fuel);
    var resp := env.provider(st.messages, env.tools);
    var asked := st.prompts + [st.messages];
    if resp.HasToolCalls() {
      var next := Next(env, st, resp);
      assert out == RunLoop(env, next, fuel - 1);
      if fuel == 1 {
        assert out.state.prompts == asked;
      } else {
        LoopEnd(env, next, fuel - 1);
      }
    } else {
      assert out.state.prompts == asked;
    }
  }

  /** The rejected calls counted over the rounds answered to `prompts[from..]`. */
  function BlockedOver(env: LoopEnv, prompts: seq<seq<ChatMessage>>, from: nat): nat
    requires from <= |prompts|
    decreases |prompts| - from
  {
    if from == |prompts| then 0
    else BlockedCount(env.gate, ResponseTo(env, prompts, from).toolCalls) + BlockedOver(env, prompts, from + 1)
  }

  lemma {:induction false} BlockedOverPrefix(env: LoopEnv, prompts: seq<seq<ChatMessage>>, more: seq<seq<ChatMessage>>, from: nat)
    requires from <= |prompts|
    ensures BlockedOver(env, prompts + more, from) == BlockedOver(env, prompts, from) + BlockedOver(env, more, 0)
    decreases |prompts| - from
  {
    if from < |prompts| {
      assert (prompts + more)[from] == prompts[from];
      BlockedOverPrefix(env, prompts, more, from + 1);
    } else {
      BlockedOverShift(env, prompts, more, 0);
    }
  }

  lemma {:induction false} BlockedOverShift(env: LoopEnv, prompts: seq<seq<ChatMessage>>, more: seq<seq<ChatMessage>>, k: nat)
    requires k <= |more|
    ensures BlockedOver(env, prompts + more, |prompts| + k) == BlockedOver(env, more, k)
    decreases |more| - k
  {
    if k < |more| {
      assert (prompts + more)[|prompts| + k] == more[k];
      BlockedOverShift(env, prompts, more, k + 1);
    }
  }

  /**
   * The loop's count of rejected calls grows by exactly the calls the gate
   * rejects over all the responses of the loop (a final answer has no calls).
   */
  lemma {:induction false} LoopBlocked(env: LoopEnv, st: LoopState, fuel: nat)
    ensures var out := RunLoop(env, st, fuel);
      out.state.blocked == st.blocked + BlockedOver(env, out.state.prompts, |st.prompts|)
    decreases fuel
  {
    var out := RunLoop(env, st, fuel);
    if fuel > 0 {
      var resp := env.provider(st.messages, env.tools);
      var asked := st.prompts + [st.messages];
      var n := |st.prompts|;
      var ps := out.state.prompts;
      assert ps[..|asked|] == asked;
      assert ps[n] == st.messages;
      if !resp.HasToolCalls() {
        assert ps == asked;
        assert BlockedOver(env, ps, n + 1) == 0;
      } else {
        var next := Next(env, st, resp);
        LoopBlocked(env, next, fuel - 1);
      }
    }
  }

  /** The calls executed over the rounds answered to `prompts[from..]`, in order. */
  function ExecutedOver(env: LoopEnv, prompts: seq<seq<ChatMessage>>, from: nat): seq<ToolCall>
    requires from <= |prompts|
    decreases |prompts| - from
  {
    if from == |prompts| then []
    else Permitted(env.gate, ResponseTo(env, prompts, from).toolCalls) + ExecutedOver(env, prompts, from + 1)
  }

  /**
   * The loop executes exactly the permitted calls of each response, response
   * after response, each response's calls in call order.
   */
  lemma {:induction false} LoopExecuted(env: LoopEnv, st: LoopState, fuel: nat)
    ensures var out := RunLoop(env, st, fuel);
      out.state.executed == st.executed + ExecutedOver(env, out.state.prompts, |st.prompts|)
    decreases fuel
  {
    var out := RunLoop(env, st, fuel);
    if fuel > 0 {
      var resp := env.provider(st.messages, env.tools);
      var asked := st.prompts + [st.messages];
      var n := |st.prompts|;
      var ps := out.state.prompts;
      assert ps[..|asked|] == asked;
      assert ps[n] == st.messages;
      if !resp.HasToolCalls() {
        assert ps == asked;
        assert ExecutedOver(env, ps, n + 1) == [];
        assert Permitted(env.gate, resp.toolCalls) == [];
      } else {
        var next := Next(env, st, resp);
        LoopExecuted(env, next, fuel - 1);
        Associative(st.executed, Permitted(env.gate, resp.toolCalls), ExecutedOver(env, ps, n + 1));
      }
    } else {
      assert out.state.executed == st.executed + [];
    }
  }

  /** No call the gate rejects is ever executed. */
  lemma {:induction false} LoopExecutesOnlyPermitted(env: LoopEnv, st: LoopState, fuel: nat)
    requires forall c :: c in st.executed ==> Permits(env.gate, c.name)
    ensures forall c :: c in RunLoop(env, st, fuel).state.executed ==> Permits(env.gate, c.name)
    decreases fuel
  {
    if fuel > 0 {
      var resp := env.provider(st.messages, env.tools);
      if resp.HasToolCalls() {
        PermittedCalls(env.gate, resp.toolCalls);
        LoopExecutesOnlyPermitted(env, Next(env, st, resp), fuel - 1);
      }
    }
  }

  /**
   * A model that always asks for tools is cut off by the iteration cap: it is
   * asked exactly `fuel` times and the loop ends with no final text.
   */
  lemma {:induction false} LoopCapped(env: LoopEnv, st: LoopState, fuel: nat)
    requires forall m, t :: env.provider(m, t).HasToolCalls()
    ensures RunLoop(env, st, fuel).final.None?
    ensures |RunLoop(env, st, fuel).state.prompts| == |st.prompts| + fuel
    decreases fuel
  {
    if fuel > 0 {
      var resp := env.provider(st.messages, env.tools);
      var next := Next(env, st, resp);
      LoopCapped(env, next, fuel - 1);
    }
  }

  /** With the gate unchecked, no call is ever rejected. */
  lemma LoopUncheckedNeverBlocks(env: LoopEnv, st: LoopState, fuel: nat)
    requires env.gate.Unchecked?
    ensures RunLoop(env, st, fuel).state.blocked == st.blocked
  {
    var out := RunLoop(env, st, fuel);
    LoopBlocked(env, st, fuel);
    BlockedOverUnchecked(env, out.state.prompts, |st.prompts|);
  }

  lemma {:induction false} BlockedOverUnchecked(env: LoopEnv, prompts: seq<seq<ChatMessage>>, from: nat)
    requires env.gate.Unchecked? && from <= |prompts|
    ensures BlockedOver(env, prompts, from) == 0
    decreases |prompts| - from
  {
    if from < |prompts| {
      BlockedOverUnchecked(env, prompts, from + 1);
      BlockedCountBounds(env.gate, ResponseTo(env, prompts, from).toolCalls);
    }
  }
}

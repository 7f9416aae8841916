/**
 * The tool registry as the agent loop sees it, the policy filter on the tool
 * schemas offered to the model, and the allow-list gate applied to each tool
 * call the model issues.
 */
module Tools {
  import opened Wrappers

  /** One tool schema; `functionName` is `schema["function"]["name"]`, absent when missing. */
  datatype ToolSchema = ToolSchema(functionName: Option<string>, parameters: string)

  /** A tool call issued by the model; `arguments` is the JSON text of its arguments. */
  datatype ToolCall = ToolCall(id: string, name: string, arguments: string)

  /**
   * The registered tools: their names, their schemas in registration order, and
   * the result each `(name, arguments)` pair executes to (an unknown name or a
   * failing tool gives an error text, never an exception).
   */
  datatype Registry = Registry(
    toolNames: seq<string>,
    definitions: seq<ToolSchema>,
    execute: (string, string) -> string)

  /** A schema is offered when it names a function and that name is allowed. */
  predicate Offered(schema: ToolSchema, allowed: set<string>) {
    schema.functionName.Some? && schema.functionName.value in allowed
  }

  /**
   * `_tool_definitions(allowed_tools)`: the registered schemas whose function
   * name is allowed, in registration order.
   */
  function ToolDefinitions(definitions: seq<ToolSchema>, allowed: set<string>): (r: seq<ToolSchema>)
    ensures |r| <= |definitions|
    ensures forall s :: s in r <==> s in definitions && Offered(s, allowed)
    decreases |definitions|
  {
    if |definitions| == 0 then []
    else
      (if Offered(definitions[0], allowed) then [definitions[0]] else [])
      + ToolDefinitions(definitions[1..], allowed)
  }

  /** The filter keeps the registration order: it distributes over concatenation. */
  lemma {:induction false} ToolDefinitionsAppend(a: seq<ToolSchema>, b: seq<ToolSchema>, allowed: set<string>)
    ensures ToolDefinitions(a + b, allowed) == ToolDefinitions(a, allowed) + ToolDefinitions(b, allowed)
    decreases |a|
  {
    if |a| > 0 {
      assert (a + b)[0] == a[0];
      assert (a + b)[1..] == a[1..] + b;
      ToolDefinitionsAppend(a[1..], b, allowed);
    } else {
      assert a + b == b;
    }
  }

  /** When every schema is named and allowed (the policy-disabled case), nothing is filtered out. */
  lemma {:induction false} ToolDefinitionsAllAllowed(definitions: seq<ToolSchema>, allowed: set<string>)
    requires forall i :: 0 <= i < |definitions| ==> Offered(definitions[i], allowed)
    ensures ToolDefinitions(definitions, allowed) == definitions
    decreases |definitions|
  {
    if |definitions| > 0 {
      ToolDefinitionsAllAllowed(definitions[1..], allowed);
      assert definitions == [definitions[0]] + definitions[1..];
    }
  }

  /** How tool calls are admitted: against an allow-list, or not at all checked. */
  datatype Gate = Unchecked | AllowList(allowed: set<string>)

  predicate Permits(gate: Gate, name: string) {
    gate.Unchecked? || name in gate.allowed
  }

  /** The result recorded for a call the allow-list rejects. */
  function BlockedMessage(name: string): string {
    "Error: Tool '" + name + "' is blocked by policy for this chat."
  }

  /** The result of one tool call: executed when permitted, the blocked message otherwise. */
  function ResultFor(gate: Gate, execute: (string, string) -> string, call: ToolCall): (r: string)
    ensures Permits(gate, call.name) ==> r == execute(call.name, call.arguments)
    ensures !Permits(gate, call.name) ==> r == BlockedMessage(call.name)
  {
    if Permits(gate, call.name) then execute(call.name, call.arguments) else BlockedMessage(call.name)
  }

  /** How many of `calls` the gate rejects. */
  function BlockedCount(gate: Gate, calls: seq<ToolCall>): (n: nat)
    ensures n <= |calls|
    decreases |calls|
  {
    if |calls| == 0 then 0
    else BlockedCount(gate, calls[..|calls| - 1]) + (if Permits(gate, calls[|calls| - 1].name) then 0 else 1)
  }

  /** No call is counted exactly when the gate permits every call, and all are when it permits none. */
  lemma {:induction false} BlockedCountBounds(gate: Gate, calls: seq<ToolCall>)
    ensures BlockedCount(gate, calls) == 0 <==> forall i :: 0 <= i < |calls| ==> Permits(gate, calls[i].name)
    ensures BlockedCount(gate, calls) == |calls| <==> forall i :: 0 <= i < |calls| ==> !Permits(gate, calls[i].name)
    decreases |calls|
  {
    if |calls| > 0 {
      var init := calls[..|calls| - 1];
      BlockedCountBounds(gate, init);
      assert forall i :: 0 <= i < |init| ==> init[i] == calls[i];
    }
  }

  /** The calls the gate lets through to execution, in call order. */
  function Permitted(gate: Gate, calls: seq<ToolCall>): (r: seq<ToolCall>)
    ensures |r| <= |calls|
    decreases |calls|
  {
    if |calls| == 0 then []
    else
      var last := calls[|calls| - 1];
      Permitted(gate, calls[..|calls| - 1]) + (if Permits(gate, last.name) then [last] else [])
  }

  /**
   * Exactly the permitted calls are executed: a call is among them iff it is one
   * of `calls` and the gate permits its name, and together with the rejected
   * ones they account for every call.
   */
  lemma {:induction false} PermittedCalls(gate: Gate, calls: seq<ToolCall>)
    ensures forall c :: c in Permitted(gate, calls) <==> c in calls && Permits(gate, c.name)
    ensures |Permitted(gate, calls)| + BlockedCount(gate, calls) == |calls|
    decreases |calls|
  {
    if |calls| > 0 {
      var init := calls[..|calls| - 1];
      PermittedCalls(gate, init);
      assert calls == init + [calls[|calls| - 1]];
    }
  }

  lemma {:induction false} BlockedCountAppend(gate: Gate, a: seq<ToolCall>, b: seq<ToolCall>)
    ensures BlockedCount(gate, a + b) == BlockedCount(gate, a) + BlockedCount(gate, b)
    decreases |b|
  {
    if |b| == 0 {
      assert a + b == a;
    } else {
      var b' := b[..|b| - 1];
      assert (a + b)[..|a + b| - 1] == a + b';
      assert (a + b)[|a + b| - 1] == b[|b| - 1];
      BlockedCountAppend(gate, a, b');
    }
  }
}

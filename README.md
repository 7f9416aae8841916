# A verified model of nanobot's agent loop

nanobot's `AgentLoop` takes one inbound chat message at a time and turns it into at
most one outbound reply. This project models that core and proves properties of it.

For a user message, the loop works in these steps:

1. It asks the policy engine for a decision: accept or refuse the message, respond or
   stay silent, and which tools are allowed. With no engine, everything is allowed.
2. It counts each dropped message in `policy_counters`.
3. It answers simple current-weather questions from one wttr.in request (the "fast
   path").
4. Otherwise it runs the provider/tool loop:
   - The model is offered only the allowed tool schemas.
   - Each tool call is executed, or refused and counted as `blocked_tool_call`.
   - One result is appended per call, in order.
   - The model is asked at most `max_iterations` times.
   - When it gives no final text, the reply is a fixed fallback.
5. It records the user's text and the reply in the message's session.

System messages are subagent announcements. They bypass policy. They are answered in
the chat their `channel:chat_id` names, with `cli` as the fallback channel.
`process_direct` wraps a CLI message and returns the reply text.

Modules:

- `Wrappers`: `Option`.
- `Strings`: the Python string builtins the loop uses, namely `strip`, `lower`,
  `split`, `split(":", 1)`, `" ".join` and `in`.
- `Aliases`: `_sender_aliases`.
- `Messages`: inbound and outbound messages, and the origin parsing of system messages.
- `Tools`: schema filtering and the per-call allow-list gate.
- `Policy`: `_policy_decision`, including the once-per-chat warning bookkeeping.
- `Weather`: the fast-path gate and `_format_weather_line`.
- `Conversation`: the provider/tool loop as a tail-recursive specification over a
  loop state.
- `Agent`: whole-turn specification functions, plus the class `AgentLoop`.

The methods of `AgentLoop` update the fields `policyCounters`,
`warnedMissingMention` and `sessions` step by step, with the source's `while` and
`for` loops. They are proved equal to the specification functions. The lemmas are
stated over those functions.

## Model

| member | source | states |
|---|---|---|
| Strings.SplitOn | nanobot/agent/loop.py:334 | `split("\|")` gives at least one part, no part holds the separator, and joining the parts with it gives back the input |
| Strings.SplitFirst | nanobot/agent/loop.py:452 | `split(":", 1)`: the head holds no `:` and head + `:` + tail is the input |
| Strings.StripSpec | nanobot/agent/loop.py:334 | `Strip`, Python's `strip()`: the result is the slice of the text between an all-whitespace prefix and an all-whitespace suffix; it is empty iff the text is all whitespace; otherwise it neither starts nor ends with whitespace |
| Strings.Lower | nanobot/agent/loop.py:410 | `lower()` keeps the length and lower-cases each character in place |
| Strings.ContainsAnyMeans | nanobot/agent/loop.py:411-414 | `any(k in s for k in ks)` holds iff some phrase occurs in `s` |
| Strings.CollapseSpaces | nanobot/agent/loop.py:454 | `" ".join(rest.split())` has the same whitespace-separated fields as `rest`, and neither starts nor ends with whitespace |
| Strings.CollapseSpacesSingleSpaced | nanobot/agent/loop.py:454 | every whitespace character left in `" ".join(rest.split())` is one `' '` between two non-whitespace characters |
| Strings.WordsAreWords | nanobot/agent/loop.py:455 | every field `split()` (`Words`) returns is non-empty and holds no whitespace |
| Strings.WordsOfWord | nanobot/agent/loop.py:455 | a single word splits into itself |
| Strings.WordsAtSpace | nanobot/agent/loop.py:454-455 | any whitespace character splits the text around it: `(a + c + b).split() == a.split() + b.split()`; with `"".split() == []` and the single-word case this determines `split()` |
| Strings.WordsOfJoined | nanobot/agent/loop.py:454-455 | splitting fields joined (`Join`) by single spaces gives back those fields |
| Aliases.AliasesOf | nanobot/agent/loop.py:332-339 | both results are empty iff every trimmed part is blank; otherwise the primary id is the first non-blank part and heads the aliases; the aliases are exactly the non-blank parts, each once, ordered by their first position among the trimmed parts |
| Aliases.SenderAliasesBlank | nanobot/agent/loop.py:331-336 | `SenderAliases`, i.e. `_sender_aliases`, gives `("", [])` exactly when every `\|`-separated part of the sender id is all whitespace |
| Aliases.SenderAliasesPrimary | nanobot/agent/loop.py:331-337 | otherwise the primary id heads the aliases and is the first non-blank part, stripped |
| Aliases.SenderAliasesMembers | nanobot/agent/loop.py:331-339 | an id is an alias iff it is some non-blank part of the sender id, stripped |
| Aliases.TrimmedBlank | nanobot/agent/loop.py:334 | each trimmed part is its part stripped, and is empty iff the part is all whitespace |
| Aliases.NonEmptyOrder | nanobot/agent/loop.py:334 | dropping the blank parts keeps the order of first occurrence of the others |
| Aliases.DedupNonEmptyOrder | nanobot/agent/loop.py:334-338 | `dict.fromkeys` of the non-blank parts lists them in the order of their first position among all the parts |
| Aliases.Dedup | nanobot/agent/loop.py:338 | `dict.fromkeys` keeps exactly the elements of its input, each once |
| Aliases.DedupOrder | nanobot/agent/loop.py:338 | the de-duplicated list is in the order of first occurrence |
| Aliases.DedupHead | nanobot/agent/loop.py:336-338 | the first alias is the primary id |
| Aliases.NonEmptyMembers | nanobot/agent/loop.py:334 | the filter `if p.strip()` keeps exactly the non-blank parts |
| Aliases.TrimmedParts | nanobot/agent/loop.py:334 | the `i`-th trimmed part is the `i`-th `\|`-separated part, stripped |
| Messages.ParseOrigin | nanobot/agent/loop.py:479-487 | a chat id with `:` splits at its first `:` into channel and chat; one without falls back to `("cli", chat_id)` |
| Messages.OriginRoundTrip | nanobot/agent/loop.py:479-490 | for a channel without `:`, parsing `channel:chat` gives back `(channel, chat)` and the session key `channel:chat` |
| Messages.OriginKeyOf | nanobot/agent/loop.py:479-490 | `OriginKey`: the origin session key is the chat id itself when it holds `:`, else `cli:<chat_id>` |
| Tools.ToolDefinitions | nanobot/agent/loop.py:385-391 | the offered schemas are exactly the registered ones that name an allowed function |
| Tools.ToolDefinitionsAppend | nanobot/agent/loop.py:385-391 | the filter keeps registration order: it distributes over concatenation |
| Tools.ToolDefinitionsAllAllowed | nanobot/agent/loop.py:385-391 | when every schema names an allowed function, nothing is filtered out |
| Tools.ResultFor | nanobot/agent/loop.py:300-304 | a permitted call's result is the tool's output; any other call's result is the blocked-by-policy error naming the tool |
| Tools.BlockedCount | nanobot/agent/loop.py:300-301 | at most one blocked count per call |
| Tools.BlockedCountBounds | nanobot/agent/loop.py:300-301 | nothing is counted iff every call is allowed, and every call is counted iff none is |
| Tools.PermittedCalls | nanobot/agent/loop.py:300-304 | `Permitted`, the calls that reach `tools.execute`: a call is among them iff it is one of the response's calls and its name passes the gate; permitted plus blocked account for every call |
| Tools.BlockedCountAppend | nanobot/agent/loop.py:299-301 | blocked counts add up over consecutive calls |
| Policy.ActorOf | nanobot/agent/loop.py:353-363 | the actor carries the channel, the chat, the sender aliases and the three metadata flags, each true iff the key is present and true |
| Policy.Decide | nanobot/agent/loop.py:341-364 | with no engine: accept, respond, all registered tools, no persona, reason `policy_disabled`; otherwise the engine's verdict on the actor |
| Policy.Evaluate | nanobot/agent/loop.py:364-378 | the decision is `Decide`'s; the warning fires iff a WhatsApp group lacks both mention keys, the decision is mention-only, and the chat was not yet warned; the chat is remembered |
| Policy.PersonaText | nanobot/agent/loop.py:380-383 | no persona text without an engine; with one, the engine's text for the decision's persona file |
| Policy.MissingMentionMetaMeans | nanobot/agent/loop.py:365-371 | `MissingMentionMeta`: the warning condition holds iff an engine is configured, the message is from a WhatsApp group, neither mention key is present and the reason ends with `when_to_reply:mention_only_group` |
| Policy.WarnTraceOnce | nanobot/agent/loop.py:372-377 | over any run, a key is warned about only when missing and not yet warned, and never twice |
| Policy.WarningsOverTrace | nanobot/agent/loop.py:364-378 | repeated evaluations are the generic warning trace over the messages' flags and keys |
| Policy.WarnsOncePerChat | nanobot/agent/loop.py:372-377 | over any sequence of messages, a chat is warned about at most once |
| Weather.WeatherUrl | nanobot/agent/loop.py:416-418 | the URL starts with `https://wttr.in/` and ends with the compact format query |
| Weather.FormatWeatherLine | nanobot/agent/loop.py:448-468 | a reply always starts with `Current weather` |
| Weather.FormatWeatherLayout | nanobot/agent/loop.py:451-468 | `WeatherDetail`, the text after `Current weather`: with no `:`, the line is appended as is. Otherwise the location is the trimmed text before the first `:`. With at least four fields they fill the condition, temperature, humidity and wind lines, and the wind takes the rest. With fewer, the fields follow single-spaced |
| Weather.FastWeather | nanobot/agent/loop.py:408-430 | a question the gate rejects gets no fast answer, and every fast answer starts with `Current weather` |
| Weather.UnusableBodyFallsThrough | nanobot/agent/loop.py:423-427 | `IsUsableBody`: a blank body, or one whose stripped text starts with `<!DOCTYPE` or `<html`, falls through to the model |
| Weather.FastWeatherSpec | nanobot/agent/loop.py:408-430 | the fast path answers iff the question qualifies and the fetch returns a non-empty, non-HTML trimmed body; the answer is that body formatted |
| Weather.FastPathPhrases | nanobot/agent/loop.py:410-414 | `FastPathApplies`: the fast path applies iff some keyword and no blocklisted phrase occurs in the lower-cased text |
| Weather.ForecastFallsThrough | nanobot/agent/loop.py:413-414 | a question mentioning `forecast` always falls through to the model |
| Weather.NoKeywordFallsThrough | nanobot/agent/loop.py:411-412 | a question with no weather keyword always falls through |
| Conversation.ToolResults | nanobot/agent/loop.py:299-307 | one result entry per tool call |
| Conversation.ToolResultsAt | nanobot/agent/loop.py:299-307 | the `i`-th result entry answers the `i`-th call |
| Conversation.RunLoop | nanobot/agent/loop.py:268-311 | the model is asked at most `fuel` more times and at least once when fuel remains; earlier prompts are kept; the blocked count only grows |
| Conversation.LoopFirstPrompt | nanobot/agent/loop.py:268-275 | the first prompt is the conversation the loop started from |
| Conversation.LoopRounds | nanobot/agent/loop.py:278-307 | between consecutive prompts the model asked for tools; the next prompt is the previous one, the model's message and one result per call |
| Conversation.LoopEnd | nanobot/agent/loop.py:308-314 | the loop ends on a response without tool calls, whose text is final, or with no final text after `fuel` tool rounds |
| Conversation.LoopBlocked | nanobot/agent/loop.py:297-302 | the blocked count grows by exactly the rejected calls over all the loop's responses |
| Conversation.LoopExecuted | nanobot/agent/loop.py:297-307 | the calls the loop executes are exactly the permitted calls of each tool-calling response, response after response, in call order |
| Conversation.LoopExecutesOnlyPermitted | nanobot/agent/loop.py:300-304 | no call the gate rejects is ever executed |
| Conversation.LoopCapped | nanobot/agent/loop.py:268-314 | a model that always asks for tools is asked exactly `fuel` times and gives no final text |
| Conversation.LoopUncheckedNeverBlocks | nanobot/agent/loop.py:547-553 | the system loop, which checks no calls, never counts a blocked call |
| Agent.Counters.AsMap | nanobot/agent/loop.py:93-97 | `policy_counters` has exactly the three counter keys, each mapped to its counter |
| Agent.Record | nanobot/agent/loop.py:321-323 | the session gets the user entry then the assistant entry appended; every other session is unchanged |
| Agent.Answer | nanobot/agent/loop.py:222-329 | an answered message asks the model at most `max_iterations` times and leaves the warnings alone |
| Agent.UserTurn | nanobot/agent/loop.py:192-329 | at most `max_iterations` model calls; the warning set is the one the policy evaluation leaves |
| Agent.SystemTurn | nanobot/agent/loop.py:470-570 | at most `max_iterations` model calls; counters and warnings unchanged |
| Agent.Turn | nanobot/agent/loop.py:204-205 | any message asks the model at most `max_iterations` times |
| Agent.UserTurnGate | nanobot/agent/loop.py:214-221 | no reply iff refused or not to be answered; each case bumps its own counter; a dropped message changes no session and asks no model |
| Agent.UserTurnReply | nanobot/agent/loop.py:320-329 | a reply goes to the message's own chat; its session grows by the user text and the reply, in that order; no other session and no drop counter changes |
| Agent.UserTurnFastPath | nanobot/agent/loop.py:224-235 | a fast-path answer is the reply; the model is not asked and no counter moves |
| Agent.UserTurnLoop | nanobot/agent/loop.py:264-318 | otherwise the reply is the model's final text or the fallback; the model is asked at least once when iterations are allowed; `blocked_tool_call` grows by the rejected calls |
| Agent.UserTurnExecutesOnlyAllowed | nanobot/agent/loop.py:297-304 | the tools a user turn runs are exactly the allowed calls of each response, in order; no tool outside `allowed_tools` is executed |
| Agent.UserTurnCapped | nanobot/agent/loop.py:268-314 | a model that always calls tools is asked exactly `max_iterations` times and the reply is the fallback |
| Agent.DisabledPolicyGate | nanobot/agent/loop.py:343-351 | with no engine every message is answered, the reason is `policy_disabled`, and a call passes iff it names a registered tool |
| Agent.SystemTurnSpec | nanobot/agent/loop.py:479-570 | the reply goes to the parsed origin; the origin session records `SystemNote`, i.e. `[System: <sender>] <content>`, and the reply; no other session changes; without final text the reply is `Background task completed.` |
| Agent.SystemTurnFallbackOrigin | nanobot/agent/loop.py:480-490 | a chat id without `:` is answered on `cli`, in session `cli:<chat_id>` |
| Agent.AgentLoop.constructor | nanobot/agent/loop.py:81-98 | the counters start at zero and no chat has been warned; the session store is the one handed in (`session_manager`, or the workspace's on-disk store), with whatever history it already holds |
| Agent.AgentLoop.PolicyDecide | nanobot/agent/loop.py:341-378 | returns the decision and updates the warned set as `Evaluate` says |
| Agent.AgentLoop.DispatchToolCalls | nanobot/agent/loop.py:299-307 | appends exactly the per-call results in order, adds the number of rejected calls to `blocked_tool_call`, and runs `execute` on exactly the permitted calls, in order |
| Agent.AgentLoop.ToolRound | nanobot/agent/loop.py:280-307 | appends the model's message, then the per-call results; executes exactly the permitted calls |
| Agent.AgentLoop.RunToolLoop | nanobot/agent/loop.py:264-314 | the `while` loop yields the specification loop's final text, blocked count and executed calls, and calls the model once per iteration |
| Agent.AgentLoop.ProcessMessage | nanobot/agent/loop.py:192-329 | the reply and the new counters, warnings and sessions are those of `Turn` |
| Agent.AgentLoop.Respond | nanobot/agent/loop.py:222-329 | the part after the gate agrees with `Answer` |
| Agent.AgentLoop.ProcessSystemMessage | nanobot/agent/loop.py:470-570 | the reply and the new state are those of `SystemTurn` |
| Agent.AgentLoop.ProcessDirect | nanobot/agent/loop.py:572-599 | the reply text is the `Turn` reply to a `user` message on the given channel and chat (by default `cli` and `direct`), or `""` without one |

## Left out

- `run` and `stop`, the bus, and the apology sent when processing raises: the loop
  around a single message is I/O and concurrency.
- Logging (`_log_policy_decision` and the `logger` calls): it has no effect on the state.
- Tool registration (`_register_default_tools`), `validate` at construction, and the
  `set_context`/`set_session_context` hooks on the message, spawn, exec and cron tools:
  these are effects inside tools that this model treats as one execution function.
- `_extract_weather_location`, URL quoting, and the HTTP request with its timeout and
  exceptions. These are parameters of `WeatherService`. An exception or failed request
  is a `None` body.
- `json.dumps` of tool arguments: arguments are carried as their JSON text.
- The context builder (`build_messages`, `add_assistant_message`, `add_tool_result`) is
  not part of this model. `build_messages` is a parameter. The other two are modelled as
  appending an assistant entry and a tool entry.
- `SessionManager` is a map from session key to history. `get_history` is folded into
  the context-builder parameter. A new session is an empty history.
- `msg.session_key` is taken to be `channel:chat_id`. The message module is not part of
  this model.
- `Strings.Lower`: lower-cases ASCII letters only. Python's `str.lower` also maps other
  Unicode letters.
- Message metadata values are modelled as booleans. Python's truthiness of other values
  is not modelled.
- Empty media lists are passed as empty sequences rather than `None`.
- `_tool_definitions` is recomputed in every iteration of the source loop. It always
  gives the same value, so it is computed once.
- `policy_counters` is a record with the three fixed keys. `AsMap` gives the dictionary
  view.
- `Agent.AgentLoop.ProcessDirect`: the `session_key` argument is unused, as it is in the
  source. The session used is the one `_process_message` derives.
- Exceptions inside a turn: in this model `provider.chat`, `build_messages` and
  `tools.execute` never raise. In the source, an exception partway through a turn keeps
  the `blocked_tool_call` increments already made (nanobot/agent/loop.py:301). It also skips the
  session save of lines 321-323, so that turn's exchange is not recorded. Neither
  behaviour is modelled.
- The provider, tool execution and policy engine are pure functions of their inputs.
  Async scheduling, model and tool state between calls, and the `model` argument are not
  modelled.
- nanobot/agent/tools/pi_stats.py, nanobot/policy/loader.py and
  nanobot/policy/__init__.py are not part of this model.

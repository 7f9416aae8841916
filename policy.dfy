/**
 * The policy gate of the agent loop (`AgentLoop._policy_decision`): the actor
 * a message is evaluated as, the allow-all default when no policy engine is
 * configured, and the one-time warning about missing WhatsApp mention metadata.
 */
module Policy {
  import opened Wrappers
  import opened Strings
  import opened Messages
  import Aliases

  /** Who sent a message and how, as the policy engine sees it. */
  datatype ActorContext = ActorContext(
    channel: string,
    chatId: string,
    senderPrimary: string,
    senderAliases: seq<string>,
    isGroup: bool,
    mentionedBot: bool,
    replyToBot: bool)

  /** What the policy engine decides about one message. */
  datatype PolicyDecision = PolicyDecision(
    acceptMessage: bool,
    shouldRespond: bool,
    allowedTools: set<string>,
    personaFile: Option<string>,
    reason: string)

  /**
   * A configured policy engine: its decision for an actor given the registered
   * tool names, and the persona text it loads for a persona file.
   */
  datatype PolicyEngine = PolicyEngine(
    evaluate: (ActorContext, set<string>) -> PolicyDecision,
    personaText: Option<string> -> Option<string>)

  /** Reason given when no policy engine is configured. */
  const DisabledReason := "policy_disabled"

  /** The reason suffix under which WhatsApp mention metadata matters. */
  const MentionOnlyReason := "when_to_reply:mention_only_group"

  /** `bool(metadata.get(key, False))`. */
  predicate Flag(metadata: map<string, bool>, key: string) {
    key in metadata && metadata[key]
  }

  /** The actor of a message, with the sender id normalised into primary id and aliases. */
  function ActorOf(msg: InboundMessage): (a: ActorContext)
    ensures a.channel == msg.channel && a.chatId == msg.chatId
    ensures (a.senderPrimary, a.senderAliases) == Aliases.SenderAliases(msg.senderId)
    ensures a.isGroup <==> "is_group" in msg.metadata && msg.metadata["is_group"]
    ensures a.mentionedBot <==> "mentioned_bot" in msg.metadata && msg.metadata["mentioned_bot"]
    ensures a.replyToBot <==> "reply_to_bot" in msg.metadata && msg.metadata["reply_to_bot"]
  {
    var ids := Aliases.SenderAliases(msg.senderId);
    ActorContext(msg.channel, msg.chatId, ids.0, ids.1,
      Flag(msg.metadata, "is_group"), Flag(msg.metadata, "mentioned_bot"), Flag(msg.metadata, "reply_to_bot"))
  }

  /** The decision for `msg`: allow everything when no engine is configured, else the engine's. */
  function Decide(engine: Option<PolicyEngine>, defaultAllowed: set<string>, msg: InboundMessage): (d: PolicyDecision)
    ensures engine.None? ==> d == PolicyDecision(true, true, defaultAllowed, None, DisabledReason)
    ensures engine.Some? ==> d == engine.value.evaluate(ActorOf(msg), defaultAllowed)
  {
    match engine
    case None => PolicyDecision(true, true, defaultAllowed, None, DisabledReason)
    case Some(e) => e.evaluate(ActorOf(msg), defaultAllowed)
  }

  /**
   * A mention-only WhatsApp group decision was taken on a message that carries
   * no mention metadata at all, so the decision fails closed.
   */
  predicate MissingMentionMeta(engine: Option<PolicyEngine>, msg: InboundMessage, d: PolicyDecision) {
    engine.Some? && msg.channel == "whatsapp" && Flag(msg.metadata, "is_group")
    && "mentioned_bot" !in msg.metadata && "reply_to_bot" !in msg.metadata
    && EndsWith(d.reason, MentionOnlyReason)
  }

  /**
   * The warning condition in the terms of the message: an engine is configured,
   * the message is from a WhatsApp group (per the actor), neither mention key
   * is present at all, and the reason ends with the mention-only marker.
   */
  lemma MissingMentionMetaMeans(engine: Option<PolicyEngine>, msg: InboundMessage, d: PolicyDecision)
    ensures MissingMentionMeta(engine, msg, d) <==>
      engine.Some? && msg.channel == "whatsapp" && ActorOf(msg).isGroup
      && "mentioned_bot" !in msg.metadata && "reply_to_bot" !in msg.metadata
      && EndsWith(d.reason, "when_to_reply:mention_only_group")
  {
  }

  /** The chat the missing-metadata warning is remembered for. */
  function WarningKey(msg: InboundMessage): string {
    msg.channel + ":" + msg.chatId
  }

  /** Outcome of one policy evaluation: the decision, whether the warning is logged, the chats warned so far. */
  datatype Evaluation = Evaluation(decision: PolicyDecision, warns: bool, warned: set<string>)

  /** `_policy_decision(msg)` together with its warning bookkeeping. */
  function Evaluate(engine: Option<PolicyEngine>, defaultAllowed: set<string>, msg: InboundMessage,
                    warned: set<string>): (e: Evaluation)
    ensures e.decision == Decide(engine, defaultAllowed, msg)
    ensures e.warns <==> MissingMentionMeta(engine, msg, e.decision) && WarningKey(msg) !in warned
    ensures e.warned == if MissingMentionMeta(engine, msg, e.decision) then warned + {WarningKey(msg)} else warned
  {
    var d := Decide(engine, defaultAllowed, msg);
    var missing := MissingMentionMeta(engine, msg, d);
    Evaluation(d, missing && WarningKey(msg) !in warned, if missing then warned + {WarningKey(msg)} else warned)
  }

  /** The persona text for a decision: none without an engine, else what the engine loads. */
  function PersonaText(engine: Option<PolicyEngine>, d: PolicyDecision): (t: Option<string>)
    ensures engine.None? ==> t.None?
    ensures engine.Some? ==> t == engine.value.personaText(d.personaFile)
  {
    match engine
    case None => None
    case Some(e) => e.personaText(d.personaFile)
  }

  /** Whether the warning is logged for each of `msgs`, evaluated in order from `warned`. */
  function WarningsOver(engine: Option<PolicyEngine>, defaultAllowed: set<string>, msgs: seq<InboundMessage>,
                        warned: set<string>): (r: (seq<bool>, set<string>))
    ensures |r.0| == |msgs|
    ensures warned <= r.1
    decreases |msgs|
  {
    if |msgs| == 0 then ([], warned)
    else
      var e := Evaluate(engine, defaultAllowed, msgs[0], warned);
      var rest := WarningsOver(engine, defaultAllowed, msgs[1..], e.warned);
      ([e.warns] + rest.0, rest.1)
  }

  /**
   * The warning bookkeeping alone: given for each evaluation whether the
   * metadata was missing and the chat key, whether the warning is logged, and
   * the chats remembered at the end.
   */
  function WarnTrace(missing: seq<bool>, keys: seq<string>, warned: set<string>): (r: (seq<bool>, set<string>))
    requires |missing| == |keys|
    ensures |r.0| == |keys|
    ensures warned <= r.1
    decreases |keys|
  {
    if |keys| == 0 then ([], warned)
    else
      var rest := WarnTrace(missing[1..], keys[1..], if missing[0] then warned + {keys[0]} else warned);
      ([missing[0] && keys[0] !in warned] + rest.0, rest.1)
  }

  /** Along any trace, a key is warned about at most once, never when already remembered, and then remembered. */
  lemma {:induction false} WarnTraceOnce(missing: seq<bool>, keys: seq<string>, warned: set<string>)
    requires |missing| == |keys|
    ensures var r := WarnTrace(missing, keys, warned);
      forall i, j :: 0 <= i < j < |keys| && r.0[i] && r.0[j] ==> keys[i] != keys[j]
    ensures var r := WarnTrace(missing, keys, warned);
      forall i :: 0 <= i < |keys| && r.0[i] ==> keys[i] !in warned && keys[i] in r.1
    decreases |keys|
  {
    if |keys| > 0 {
      var w := if missing[0] then warned + {keys[0]} else warned;
      var tail := keys[1..];
      WarnTraceOnce(missing[1..], tail, w);
      var r := WarnTrace(missing, keys, warned);
      var rest := WarnTrace(missing[1..], tail, w);
      assert r.0 == [missing[0] && keys[0] !in warned] + rest.0 && r.1 == rest.1;
      forall i | 0 <= i < |keys| && r.0[i]
        ensures keys[i] !in warned && keys[i] in r.1
      {
        if i > 0 {
          assert rest.0[i - 1] && keys[i] == tail[i - 1];
        }
      }
      forall i, j | 0 <= i < j < |keys| && r.0[i] && r.0[j]
        ensures keys[i] != keys[j]
      {
        assert rest.0[j - 1] && keys[j] == tail[j - 1];
        if i > 0 {
          assert rest.0[i - 1] && keys[i] == tail[i - 1];
        }
      }
    }
  }

  /** For each of `msgs`, whether its decision was taken without mention metadata. */
  function MissingFlags(engine: Option<PolicyEngine>, defaultAllowed: set<string>, msgs: seq<InboundMessage>): (r: seq<bool>)
    ensures |r| == |msgs|
    decreases |msgs|
  {
    if |msgs| == 0 then []
    else [MissingMentionMeta(engine, msgs[0], Decide(engine, defaultAllowed, msgs[0]))]
         + MissingFlags(engine, defaultAllowed, msgs[1..])
  }

  /** The warning key of each of `msgs`. */
  function WarningKeys(msgs: seq<InboundMessage>): (r: seq<string>)
    ensures |r| == |msgs|
    ensures forall i :: 0 <= i < |msgs| ==> r[i] == WarningKey(msgs[i])
    decreases |msgs|
  {
    if |msgs| == 0 then [] else [WarningKey(msgs[0])] + WarningKeys(msgs[1..])
  }

  /** Evaluating messages one after another performs exactly the bookkeeping of `WarnTrace`. */
  lemma {:induction false} WarningsOverTrace(engine: Option<PolicyEngine>, defaultAllowed: set<string>,
                                             msgs: seq<InboundMessage>, warned: set<string>)
    ensures WarningsOver(engine, defaultAllowed, msgs, warned)
         == WarnTrace(MissingFlags(engine, defaultAllowed, msgs), WarningKeys(msgs), warned)
    decreases |msgs|
  {
    if |msgs| > 0 {
      var e := Evaluate(engine, defaultAllowed, msgs[0], warned);
      WarningsOverTrace(engine, defaultAllowed, msgs[1..], e.warned);
      var flags := MissingFlags(engine, defaultAllowed, msgs);
      assert flags[1..] == MissingFlags(engine, defaultAllowed, msgs[1..]);
      assert WarningKeys(msgs)[1..] == WarningKeys(msgs[1..]);
    }
  }

  /**
   * The de-duplication the warned set provides: along any sequence of
   * messages, the warning is logged at most once per chat, never for a chat
   * already warned about, and every chat it is logged for is remembered.
   */
  lemma WarnsOncePerChat(engine: Option<PolicyEngine>, defaultAllowed: set<string>,
                         msgs: seq<InboundMessage>, warned: set<string>)
    ensures var r := WarningsOver(engine, defaultAllowed, msgs, warned);
      forall i, j :: 0 <= i < j < |msgs| && r.0[i] && r.0[j] ==> WarningKey(msgs[i]) != WarningKey(msgs[j])
    ensures var r := WarningsOver(engine, defaultAllowed, msgs, warned);
      forall i :: 0 <= i < |msgs| && r.0[i] ==> WarningKey(msgs[i]) !in warned && WarningKey(msgs[i]) in r.1
  {
    WarningsOverTrace(engine, defaultAllowed, msgs, warned);
    WarnTraceOnce(MissingFlags(engine, defaultAllowed, msgs), WarningKeys(msgs), warned);
  }
}

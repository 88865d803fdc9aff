/**
  The offline responder: a deterministic reply computed from the message list
  alone, used when no API key is configured.
 */
module Fallback {
  import opened Wrappers
  import opened Messages

  /** The reply when the conversation holds no user message yet. */
  const InvitationReply: string :=
    "Tell me what you'd like help with, and I'll do my best to assist."

  /** The fixed part of the offline reply; the last user message follows it verbatim. */
  const OfflinePrefix: string :=
    "I'm running in offline mode. Set OPENAI_API_KEY to connect to the OpenAI API. You said: "

  /** No message at index `from` or later has the user role. */
  ghost predicate NoUserFrom(ms: seq<ChatMessage>, from: nat)
  {
    forall j :: from <= j < |ms| ==> ms[j].role != User
  }

  /** The position of the most recent user message, searching from the end. */
  function LastUserIndex(ms: seq<ChatMessage>): (r: Option<nat>)
    ensures r.Some? ==> r.value < |ms| && ms[r.value].role == User && NoUserFrom(ms, r.value + 1)
    ensures r.None? ==> NoUserFrom(ms, 0)
  {
    if ms == [] then None
    else if ms[|ms| - 1].role == User then Some(|ms| - 1)
    else LastUserIndex(ms[..|ms| - 1])
  }

  /**
    The offline reply: the invitation when nobody has spoken yet, otherwise the
    offline notice followed by the content of the most recent user message.
   */
  function Generate(ms: seq<ChatMessage>): (r: string)
    ensures NoUserFrom(ms, 0) ==> r == InvitationReply
  {
    match LastUserIndex(ms)
    case None => InvitationReply
    case Some(i) => OfflinePrefix + ms[i].content
  }

  /** The reply echoes the last user message, whatever follows it. */
  lemma GenerateEchoesLastUser(ms: seq<ChatMessage>, i: nat)
    requires i < |ms| && ms[i].role == User && NoUserFrom(ms, i + 1)
    ensures Generate(ms) == OfflinePrefix + ms[i].content
    ensures |Generate(ms)| == |OfflinePrefix| + |ms[i].content|
    ensures Generate(ms)[|OfflinePrefix|..] == ms[i].content
  {
  }

  /** The invitation is returned exactly when the conversation has no user message. */
  lemma GenerateInvitationIff(ms: seq<ChatMessage>)
    ensures Generate(ms) == InvitationReply <==> NoUserFrom(ms, 0)
  {
    if LastUserIndex(ms).Some? {
      var c := ms[LastUserIndex(ms).value].content;
      assert |InvitationReply| < |OfflinePrefix| <= |OfflinePrefix + c|;
    }
  }

  /** Messages of other roles appended after the last user message do not change the reply. */
  lemma {:induction false} GenerateIgnoresTrailing(ms: seq<ChatMessage>, tail: seq<ChatMessage>)
    requires NoUserFrom(tail, 0)
    ensures Generate(ms + tail) == Generate(ms)
  {
    LastUserIgnoresTrailing(ms, tail);
  }

  lemma {:induction false} LastUserIgnoresTrailing(ms: seq<ChatMessage>, tail: seq<ChatMessage>)
    requires NoUserFrom(tail, 0)
    ensures LastUserIndex(ms + tail) == LastUserIndex(ms)
  {
    if tail == [] {
      assert ms + tail == ms;
    } else {
      var all := ms + tail;
      var shorter := tail[..|tail| - 1];
      assert all[|all| - 1] == tail[|tail| - 1];
      assert all[..|all| - 1] == ms + shorter;
      LastUserIgnoresTrailing(ms, shorter);
    }
  }

  /** Two conversations whose most recent user messages agree get the same reply. */
  lemma GenerateDependsOnlyOnLastUser(ms: seq<ChatMessage>, i: nat, ns: seq<ChatMessage>, j: nat)
    requires i < |ms| && ms[i].role == User && NoUserFrom(ms, i + 1)
    requires j < |ns| && ns[j].role == User && NoUserFrom(ns, j + 1)
    requires ms[i].content == ns[j].content
    ensures Generate(ms) == Generate(ns)
  {
    GenerateEchoesLastUser(ms, i);
    GenerateEchoesLastUser(ns, j);
  }
}

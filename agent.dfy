/**
  The chat agent: one conversational turn over a session, the history window
  handed to the model client, recovery from transport failures and the
  reported mode.
 */
module Agent {
  import opened Wrappers
  import opened Messages
  import Fallback

  /** The persona used when no system prompt is configured. */
  const DefaultSystemPrompt: string :=
    "You are a helpful, friendly AI assistant. Answer clearly and concisely, and ask follow-up questions when helpful."

  /** The history window used when none is configured. */
  const DefaultMaxHistory: int := 16

  /** The reply that replaces an HTTP error answer from the OpenAI API. */
  const HttpErrorReply: string :=
    "I couldn't reach the OpenAI API right now. Double-check your API key and network, then try again."

  /** The reply that replaces a failure to reach the network at all. */
  const UrlErrorReply: string :=
    "The network seems unavailable right now. Please try again shortly."

  /** Which client answers: the remote OpenAI client or the offline responder. */
  datatype ClientKind = OpenAIClient | FallbackClient

  /**
    What one call of the remote client ends in: generated text, an HTTP error
    status, a failure to reach the server, or any other exception (a malformed
    response body, a timeout while reading it), which the agent does not catch.
   */
  datatype Outcome = Completed(text: string) | HttpError | UrlError | OtherError

  /** The provenance reported with each reply. */
  datatype Mode = Online | Offline

  /** The client a (stripped) API key selects: any non-empty key means OpenAI. */
  function ClientFor(apiKey: string): ClientKind
  {
    if apiKey != "" then OpenAIClient else FallbackClient
  }

  /** The mode an agent starts in with the given client. */
  function InitialMode(client: ClientKind): Mode
  {
    if client == OpenAIClient then Online else Offline
  }

  /** The failures the agent recovers from by replying with a fixed message. */
  predicate IsTransportFailure(outcome: Outcome)
  {
    outcome.HttpError? || outcome.UrlError?
  }

  /** The history starts with a system message. */
  predicate HasSystemHead(ms: seq<ChatMessage>)
  {
    ms != [] && ms[0].role == System
  }

  /**
    Puts the system prompt in front of the history unless it already starts with
    a system message; an existing head system message is never duplicated.
   */
  function WithSystemHead(ms: seq<ChatMessage>, prompt: string): (r: seq<ChatMessage>)
    ensures HasSystemHead(r)
    ensures |ms| <= |r| <= |ms| + 1 && r[|r| - |ms|..] == ms
    ensures r == ms <==> HasSystemHead(ms)
    ensures r != ms ==> r[0] == ChatMessage(System, prompt)
  {
    if HasSystemHead(ms) then ms else [ChatMessage(System, prompt)] + ms
  }

  /**
    Python's `s[start:]`: a negative start counts from the end and is clamped at
    the front, a start past the end gives the empty sequence.
   */
  function PySuffix<T>(s: seq<T>, start: int): (r: seq<T>)
    ensures |r| <= |s| && r == s[|s| - |r|..]
    ensures start >= 0 ==> |r| == if start >= |s| then 0 else |s| - start
    ensures start < 0 ==> |r| == if -start >= |s| then |s| else -start
  {
    var from := if start < 0 then (if start + |s| < 0 then 0 else start + |s|)
                else (if start > |s| then |s| else start);
    s[from..]
  }

  /**
    The window `messages[-maxHistory:]` handed to the client: always a suffix of
    the history; the last `maxHistory` messages for a positive limit, all of
    them for a zero limit, and all but the first `-maxHistory` for a negative one.
   */
  function History(ms: seq<ChatMessage>, maxHistory: int): (r: seq<ChatMessage>)
    ensures |r| <= |ms| && r == ms[|ms| - |r|..]
    ensures maxHistory > 0 ==> |r| == if maxHistory < |ms| then maxHistory else |ms|
    ensures maxHistory == 0 ==> r == ms
    ensures maxHistory < 0 ==> r == if -maxHistory >= |ms| then [] else ms[-maxHistory..]
  {
    PySuffix(ms, -maxHistory)
  }

  /**
    The reply of one turn given the window passed to the client, or None when
    the client's exception escapes the turn.
   */
  function ClientReply(client: ClientKind, outcome: Outcome, history: seq<ChatMessage>): Option<string>
  {
    match client
    case FallbackClient => Some(Fallback.Generate(history))
    case OpenAIClient =>
      match outcome
      case Completed(text) => Some(text)
      case HttpError => Some(HttpErrorReply)
      case UrlError => Some(UrlErrorReply)
      case OtherError => None
  }

  /** The mode after one turn: a recovered transport failure switches to offline. */
  function NextMode(mode: Mode, client: ClientKind, outcome: Outcome): Mode
  {
    if client == OpenAIClient && IsTransportFailure(outcome) then Offline else mode
  }

  /** The mode after a series of turns with the given client outcomes. */
  function ModeAfter(mode: Mode, client: ClientKind, outcomes: seq<Outcome>): Mode
    decreases |outcomes|
  {
    if outcomes == [] then mode
    else ModeAfter(NextMode(mode, client, outcomes[0]), client, outcomes[1..])
  }

  /**
    A well-formed conversation: empty, or a system message followed by
    alternating user and assistant messages, ending with an assistant reply.
   */
  ghost predicate Transcript(ms: seq<ChatMessage>)
  {
    ms == [] ||
    (HasSystemHead(ms) && |ms| % 2 == 1 &&
     forall i :: 1 <= i < |ms| ==> ms[i].role == TurnRole(i))
  }

  /** No message other than the head has the system role. */
  ghost predicate SystemOnlyAtHead(ms: seq<ChatMessage>)
  {
    forall i :: 0 < i < |ms| ==> ms[i].role != System
  }

  /** The role expected at position `i` after the system message. */
  function TurnRole(i: int): Role
  {
    if i % 2 == 1 then User else Assistant
  }

  class ChatAgent {
    const client: ClientKind
    const maxHistory: int
    const systemPrompt: string
    var mode: Mode

    /** The offline responder always reports offline. */
    ghost predicate Valid()
      reads this
    {
      client == FallbackClient ==> mode == Offline
    }

    /**
      A non-empty (already stripped) API key selects the OpenAI client and the
      online mode; otherwise the offline responder answers and the mode is offline.
     */
    constructor (apiKey: string, maxHistory: int, systemPrompt: string)
      ensures Valid()
      ensures client == (if apiKey != "" then OpenAIClient else FallbackClient)
      ensures mode == (if apiKey != "" then Online else Offline)
      ensures this.maxHistory == maxHistory && this.systemPrompt == systemPrompt
    {
      this.maxHistory := maxHistory;
      this.systemPrompt := systemPrompt;
      client := ClientFor(apiKey);
      mode := InitialMode(ClientFor(apiKey));
    }

    /** An agent configured with the default history window and persona. */
    constructor FromDefaults(apiKey: string)
      ensures Valid()
      ensures client == (if apiKey != "" then OpenAIClient else FallbackClient)
      ensures mode == (if apiKey != "" then Online else Offline)
      ensures maxHistory == DefaultMaxHistory && systemPrompt == DefaultSystemPrompt
    {
      maxHistory := DefaultMaxHistory;
      systemPrompt := DefaultSystemPrompt;
      client := ClientFor(apiKey);
      mode := InitialMode(ClientFor(apiKey));
    }

    /**
      Asks the configured client about `history`. An HTTP error or a network
      failure of the OpenAI client is absorbed: a fixed reply replaces the
      answer and the mode becomes offline. Any other failure escapes (None).
     */
    method Ask(history: seq<ChatMessage>, outcome: Outcome) returns (r: Option<string>)
      requires Valid()
      modifies this`mode
      ensures Valid()
      ensures r == ClientReply(client, outcome, history)
      ensures mode == NextMode(old(mode), client, outcome)
      ensures r.None? <==> client == OpenAIClient && outcome.OtherError?
      ensures client == OpenAIClient && outcome.Completed? ==> r == Some(outcome.text)
      ensures client == OpenAIClient && outcome.HttpError? ==> r == Some(HttpErrorReply) && mode == Offline
      ensures client == OpenAIClient && outcome.UrlError? ==> r == Some(UrlErrorReply) && mode == Offline
    {
      match client {
        case FallbackClient =>
          r := Some(Fallback.Generate(history));
        case OpenAIClient =>
          match outcome {
            case Completed(text) =>
              r := Some(text);
            case HttpError =>
              mode := Offline;
              r := Some(HttpErrorReply);
            case UrlError =>
              mode := Offline;
              r := Some(UrlErrorReply);
            case OtherError =>
              r := None;
          }
      }
    }

    /**
      One turn: make sure the session starts with the system prompt, append the
      user message, ask the client about the last `maxHistory` messages, and
      append and return the reply. `remote` gives what the OpenAI client's call
      ends in for the messages it is sent; the offline responder does not use
      it. When the call raises anything but an HTTP or network error, the
      exception escapes (None) after the system prompt and the user message
      have been recorded.
     */
    method Respond(session: ChatSession, userMessage: string, remote: seq<ChatMessage> -> Outcome)
      returns (r: Option<string>)
      requires Valid()
      modifies this`mode, session`messages
      ensures Valid()
      ensures var sent := WithSystemHead(old(session.messages), systemPrompt) + [ChatMessage(User, userMessage)];
        var window := History(sent, maxHistory);
        r == ClientReply(client, remote(window), window)
      ensures var sent := WithSystemHead(old(session.messages), systemPrompt) + [ChatMessage(User, userMessage)];
        mode == NextMode(old(mode), client, remote(History(sent, maxHistory)))
      ensures session.messages == AfterTurn(old(session.messages), systemPrompt, userMessage, r)
      ensures old(mode) == Offline ==> mode == Offline
      ensures Transcript(old(session.messages)) && r.Some? ==> Transcript(session.messages)
      ensures SystemOnlyAtHead(old(session.messages)) ==> SystemOnlyAtHead(session.messages)
    {
      ghost var before := session.messages;
      ghost var sent := WithSystemHead(before, systemPrompt) + [ChatMessage(User, userMessage)];
      if session.messages == [] || session.messages[0].role != System {
        session.messages := [ChatMessage(System, systemPrompt)] + session.messages;
      }
      assert session.messages == WithSystemHead(before, systemPrompt);
      session.Add(User, userMessage);
      assert session.messages == sent;
      var history := History(session.messages, maxHistory);
      r := Ask(history, remote(history));
      if r.Some? {
        session.Add(Assistant, r.value);
      }
      assert session.messages == AfterTurn(before, systemPrompt, userMessage, r);
      TurnKeepsTranscript(before, systemPrompt, userMessage, r);
      if SystemOnlyAtHead(before) {
        TurnKeepsSystemOnlyAtHead(before, systemPrompt, userMessage, r);
      }
    }
  }

  /**
    The history after one turn: the system prompt in front if it was missing,
    then the user message and, unless the client's exception escaped, the reply.
   */
  function AfterTurn(ms: seq<ChatMessage>, prompt: string, user: string, reply: Option<string>): seq<ChatMessage>
  {
    var sent := WithSystemHead(ms, prompt) + [ChatMessage(User, user)];
    if reply.Some? then sent + [ChatMessage(Assistant, reply.value)] else sent
  }

  /**
    The shape of the history after a turn: it starts with a system message, the
    earlier messages sit untouched right before the new ones, and the turn added
    the user message and, when there is one, the reply: two or three messages in
    all, three exactly when the system prompt had to be put in front.
   */
  lemma TurnShape(ms: seq<ChatMessage>, prompt: string, user: string, reply: Option<string>)
    ensures var r := AfterTurn(ms, prompt, user, reply);
      && HasSystemHead(r)
      && |r| == |ms| + (if HasSystemHead(ms) then 0 else 1) + (if reply.Some? then 2 else 1)
      && (HasSystemHead(ms) ==> r[..|ms|] == ms)
      && (!HasSystemHead(ms) ==> r[0] == ChatMessage(System, prompt) && r[1..|ms| + 1] == ms)
    ensures var r := AfterTurn(ms, prompt, user, reply);
      reply.Some? ==> r[|r| - 2..] == [ChatMessage(User, user), ChatMessage(Assistant, reply.value)]
    ensures var r := AfterTurn(ms, prompt, user, reply);
      reply.None? ==> r[|r| - 1] == ChatMessage(User, user)
  {
    var head := WithSystemHead(ms, prompt);
    var r := AfterTurn(ms, prompt, user, reply);
    if reply.Some? {
      assert r == head + [ChatMessage(User, user), ChatMessage(Assistant, reply.value)];
    } else {
      assert r == head + [ChatMessage(User, user)];
    }
  }

  /** A completed turn keeps a well-formed conversation well formed. */
  lemma TurnKeepsTranscript(ms: seq<ChatMessage>, prompt: string, user: string, reply: Option<string>)
    ensures Transcript(ms) && reply.Some? ==> Transcript(AfterTurn(ms, prompt, user, reply))
  {
    if Transcript(ms) && reply.Some? {
      var tail := [ChatMessage(User, user), ChatMessage(Assistant, reply.value)];
      if ms == [] {
        assert AfterTurn(ms, prompt, user, reply) == [ChatMessage(System, prompt)] + tail;
      } else {
        assert AfterTurn(ms, prompt, user, reply) == ms + tail;
        TranscriptGrows(ms, tail);
      }
    }
  }

  /**
    Every turn, completed or not, keeps the system message unique and at the
    head: the prompt goes in only at position 0 and only when the head is not
    already a system message, and the turn appends only user and assistant
    messages.
   */
  lemma TurnKeepsSystemOnlyAtHead(ms: seq<ChatMessage>, prompt: string, user: string, reply: Option<string>)
    requires SystemOnlyAtHead(ms)
    ensures SystemOnlyAtHead(AfterTurn(ms, prompt, user, reply))
  {
    var head := WithSystemHead(ms, prompt);
    var r := AfterTurn(ms, prompt, user, reply);
    var extra := if reply.Some? then [ChatMessage(User, user), ChatMessage(Assistant, reply.value)]
                 else [ChatMessage(User, user)];
    assert r == head + extra;
    forall i | 0 < i < |r|
      ensures r[i].role != System
    {
      if i >= |head| {
        assert r[i] == extra[i - |head|];
      } else if HasSystemHead(ms) {
        assert r[i] == ms[i];
      } else {
        assert r[i] == ms[i - 1];
      }
    }
  }

  /** A user message and its reply appended to a non-empty transcript keep it well formed. */
  lemma TranscriptGrows(ms: seq<ChatMessage>, tail: seq<ChatMessage>)
    requires Transcript(ms) && ms != []
    requires |tail| == 2 && tail[0].role == User && tail[1].role == Assistant
    ensures Transcript(ms + tail)
  {
    var next := ms + tail;
    forall i | 1 <= i < |next|
      ensures next[i].role == TurnRole(i)
    {
      if i < |ms| {
        assert next[i] == ms[i];
      } else {
        assert next[i] == tail[i - |ms|];
      }
    }
  }

  /**
    With the offline responder and a non-negative window, the reply echoes the
    message the user just sent.
   */
  lemma FallbackReplyEchoesUser(ms: seq<ChatMessage>, prompt: string, maxHistory: int, user: string)
    requires maxHistory >= 0
    ensures var sent := WithSystemHead(ms, prompt) + [ChatMessage(User, user)];
      Fallback.Generate(History(sent, maxHistory)) == Fallback.OfflinePrefix + user
  {
    FallbackReplyEchoesIffWindow(ms, prompt, maxHistory, user);
  }

  /**
    A negative window at least as long as the whole history leaves the offline
    responder nothing to read, so it answers with the invitation.
   */
  lemma FallbackReplyOnEmptyWindow(ms: seq<ChatMessage>, prompt: string, maxHistory: int, user: string)
    requires maxHistory <= -(|ms| + 2)
    ensures var sent := WithSystemHead(ms, prompt) + [ChatMessage(User, user)];
      History(sent, maxHistory) == [] &&
      Fallback.Generate(History(sent, maxHistory)) == Fallback.InvitationReply
  {
    FallbackReplyEchoesIffWindow(ms, prompt, maxHistory, user);
  }

  /**
    For every history window, the offline reply echoes the message the user
    just sent exactly when the window is not empty; an empty window, which only
    a negative limit can give, yields the invitation instead.
   */
  lemma FallbackReplyEchoesIffWindow(ms: seq<ChatMessage>, prompt: string, maxHistory: int, user: string)
    ensures var h := History(WithSystemHead(ms, prompt) + [ChatMessage(User, user)], maxHistory);
      && (Fallback.Generate(h) == Fallback.OfflinePrefix + user <==> h != [])
      && (h == [] ==> Fallback.Generate(h) == Fallback.InvitationReply)
  {
    var sent := WithSystemHead(ms, prompt) + [ChatMessage(User, user)];
    var h := History(sent, maxHistory);
    if h != [] {
      assert h[|h| - 1] == sent[|sent| - 1];
      Fallback.GenerateEchoesLastUser(h, |h| - 1);
    } else {
      assert Fallback.Generate(h) == Fallback.InvitationReply;
      assert |Fallback.InvitationReply| < |Fallback.OfflinePrefix| <= |Fallback.OfflinePrefix + user|;
    }
  }

  /**
    No turn brings the agent back online: after any series of turns the mode is
    online exactly when it started online and no transport failure was recovered.
   */
  lemma {:induction false} ModeOnlyDegrades(mode: Mode, client: ClientKind, outcomes: seq<Outcome>)
    ensures ModeAfter(mode, client, outcomes) == Online <==>
      mode == Online && (client == FallbackClient || forall i :: 0 <= i < |outcomes| ==> !IsTransportFailure(outcomes[i]))
    decreases |outcomes|
  {
    if outcomes != [] {
      ModeOnlyDegrades(NextMode(mode, client, outcomes[0]), client, outcomes[1..]);
      if client == OpenAIClient && mode == Online && !IsTransportFailure(outcomes[0]) {
        assert forall i :: 1 <= i < |outcomes| ==> outcomes[i] == outcomes[1..][i - 1];
      }
    }
  }
}

# Chat session core, modelled in Dafny

This project models the conversation logic of a small chat web service
(`app/main.py`): the per-conversation message history, the in-memory store
that hands out sessions by identifier, the offline responder used when no
OpenAI API key is configured, and the agent's per-turn transition, which
puts the system prompt at the head of the history, records the user message,
passes a window of the most recent messages to the model client, absorbs
HTTP and network failures with fixed replies, records the assistant reply and
tracks the reported mode (`online` / `offline`).

Modules, one per part of the program:

- `Wrappers` (`wrappers.dfy`): `Option`, standing in for Python's `None`.
- `Messages` (`messages.dfy`): `Role`, `ChatMessage` and the class
  `ChatSession`, whose `messages` field `Add` appends to in place.
- `Store` (`store.dfy`): the class `ChatMemoryStore` holding a
  `map<string, ChatSession>`; `GetOrCreate` mutates it and returns the shared
  session object.
- `Fallback` (`fallback.dfy`): the offline responder as pure functions over
  `seq<ChatMessage>` and lemmas about them.
- `Agent` (`agent.dfy`): the class `ChatAgent` with its `mode` field, the
  `Respond` turn, the Python slice `messages[-max_history:]` written out for
  every integer limit, and the lemmas about turns and modes.

Modelling decisions:

- The remote OpenAI call is a function `remote`, supplied by the caller,
  from the messages it is sent to an `Outcome`: `Completed(text)`,
  `HttpError`, `UrlError`, or `OtherError`. `Respond` applies it to exactly the
  window `History(...)` of the turn. `OtherError` stands for every other
  exception the client can raise (a missing
  `choices` field in the body, a timeout while reading). `respond` does not
  catch those, so `Respond` returns `None`. By then the system prompt and the
  user message are already recorded, and the mode is unchanged. From then on
  the history no longer alternates user and assistant turns (the user message
  has no reply after it), while the system message is still unique and at the
  head.
- The random session identifier (`uuid4().hex`) is a `freshId` parameter of
  `GetOrCreate`. It is required to be non-empty, as a hex digest always is.
- Roles form a closed datatype (`System`, `User`, `Assistant`): the source
  only ever writes these three strings.
- The mode strings are `"online"` and `"offline"`, modelled as `Mode`.
- The Python test `if not last_user` is a test for `None`: a dataclass
  instance is always truthy. A user message with empty content is therefore
  echoed, not treated as absent.
- `add` only appends and one agent holds one client; `Add` never drops a
  message.
- The configured `max_history` is any integer. With Python slicing, a
  negative limit drops the first `-max_history` messages rather than keeping
  the last ones. With a long enough negative limit the offline responder sees
  an empty window and answers with its invitation, even though the user just
  spoke (`FallbackReplyOnEmptyWindow`, `FallbackReplyEchoesIffWindow`).

## Model

| member | source | states |
|---|---|---|
| Messages.ChatSession.constructor | app/main.py:26-29 | a new session has the given id and an empty message list |
| Messages.ChatSession.Add | app/main.py:31-32 | appends exactly one message with the given role and content at the end; earlier messages unchanged, nothing trimmed |
| Messages.ChatSession.Clear | app/main.py:158-162 | the reset endpoint empties the session's messages |
| Store.ChatMemoryStore.constructor | app/main.py:36-37 | a new store is empty and satisfies the store invariant |
| Store.EffectiveId | app/main.py:40-41 | a non-empty requested id is used as given, a missing or empty one is replaced by the minted one, so with a non-empty minted id no session is ever filed under an empty key |
| Store.ChatMemoryStore.GetOrCreate | app/main.py:39-44 | a known id returns the stored session object and leaves the map unchanged; an unknown id registers a fresh empty session with that id, all other entries untouched; every key is non-empty and maps to a session with that id |
| Store.LookupIsShared | app/main.py:39-44 | two lookups of the same id return the same object, so a message added through the first is visible through the second |
| Fallback.LastUserIndex | app/main.py:76 | the reversed search finds the position of a user message after which no user message follows, or none exists at all |
| Fallback.Generate | app/main.py:75-83 | with no user message the reply is the fixed invitation |
| Fallback.GenerateEchoesLastUser | app/main.py:76-83 | when a user message exists the reply is the fixed offline notice followed by the last user message's content verbatim |
| Fallback.GenerateInvitationIff | app/main.py:76-78 | the invitation is returned if and only if no message has the user role |
| Fallback.LastUserIgnoresTrailing | app/main.py:76 | appending non-user messages does not move the found last user message |
| Fallback.GenerateIgnoresTrailing | app/main.py:76 | non-user messages after the last user message do not change the reply |
| Fallback.GenerateDependsOnlyOnLastUser | app/main.py:79-83 | two histories whose last user messages have equal content get the same reply |
| Agent.WithSystemHead | app/main.py:108-109 | the result starts with a system message; the prompt is put in front only when the list is empty or its head is not a system message, so a head system message is never duplicated; the old list is kept as a suffix |
| Agent.PySuffix | app/main.py:111 | Python's `s[start:]`: always a suffix, with the clamped length Python gives for negative and out-of-range starts |
| Agent.History | app/main.py:111 | the window `messages[-max_history:]` is a suffix; of length min(max_history, len) for a positive limit, the whole list for zero, all but the first -max_history for a negative one |
| Agent.ChatAgent.constructor | app/main.py:100-105 | a non-empty API key selects the OpenAI client and online mode, otherwise the offline responder and offline mode |
| Agent.ChatAgent.FromDefaults | app/main.py:87-105 | with no history limit or system prompt configured, a history window of 16 and the default persona; the API key still selects client and mode |
| Agent.ChatAgent.Ask | app/main.py:112-126 | an HTTP error gives the fixed "couldn't reach the OpenAI API" reply, a network error the fixed "network seems unavailable" reply, both switch mode to offline; any other exception escapes; the offline responder never fails |
| Agent.ChatAgent.Respond | app/main.py:107-128 | the client is sent exactly the window `messages[-max_history:]` of the history with the system head and the user message, and the reply and the new mode are what that call on that window gives; the new history is that list plus the reply when the turn completes, and just that list when the exception escapes; mode only moves from online to offline; a completed turn keeps a well-formed transcript well formed; the system message stays unique and at the head on every path, the escaping exception included |
| Agent.TurnShape | app/main.py:107-128 | after a turn the history starts with a system message, grew by 2, or by 3 when the prompt was inserted (1 or 2 when the exception escaped), keeps the old messages in place, and ends with (user, message) then (assistant, reply) |
| Agent.TurnKeepsTranscript | app/main.py:107-128 | a completed turn keeps "system head, then alternating user and assistant turns" |
| Agent.TurnKeepsSystemOnlyAtHead | app/main.py:107-128 | every turn, completed or not, keeps "no system message except at index 0": the prompt is inserted only at 0 and only when the head is not system, and only user and assistant messages are appended |
| Agent.TranscriptGrows | app/main.py:110-127 | appending a user message and an assistant reply to a non-empty well-formed transcript keeps it well formed |
| Agent.FallbackReplyEchoesUser | app/main.py:110-113 | with the offline responder and a non-negative window, the reply echoes the message the user just sent |
| Agent.FallbackReplyOnEmptyWindow | app/main.py:110-113 | a negative window longer than the history is empty, and the offline responder then answers with the invitation |
| Agent.FallbackReplyEchoesIffWindow | app/main.py:110-113 | for every history limit, the offline reply echoes the message the user just sent exactly when the window is non-empty; an empty window gives the invitation |
| Agent.ModeOnlyDegrades | app/main.py:100-126 | after any series of turns the mode is online exactly when it started online and no HTTP or network failure occurred with the OpenAI client |

## Left out

- The OpenAI HTTP client (request building, JSON encoding and decoding,
  `urlopen` with a timeout): network I/O, replaced by the `remote` function
  parameter of `Respond`, which maps the messages sent to an `Outcome`.
- Environment and `.env` loading, and the stripping of the API key: the
  constructor takes an already stripped key, the history limit and the system
  prompt as parameters.
- The model name, the sampling temperature and the request timeout: they are
  only passed to the remote call and do not affect the session logic.
- Message timestamps (`time.time()`): a clock value nothing reads.
- The random generation of session identifiers: a `freshId` parameter instead.
- The FastAPI routes, templates and static files: transport plumbing. The
  only state change in them, clearing a session on reset, is `Clear`.
- The `HTTPError`-is-a-`URLError` subclass relation: the handlers are tried
  in order, so a three-way case split on `Outcome` gives the same dispatch.
- Concurrent requests on one session: the handlers are plain functions run on
  a worker thread pool, so two first requests for one session can both find
  no system head and both insert the prompt. `SystemOnlyAtHead`, the
  transcript shape and every other property of `Respond` are claimed only for
  requests on one session processed one after another.

# Mir AI chat app — a Dafny model

Mir AI is a companion chat app with two parts. An Express relay
(`backend/server.js`) receives `POST /api/chat` with a message, a user id and
a session id. It answers from a reply cache when it can. Otherwise it keeps
a per-session conversation history, tags the message with a sentiment
("The user is feeling positive. "), and asks the OpenRouter completion
endpoint for a reply, retrying up to three times. It strips "hedging"
sentences from that reply (`filterReasoning`), sometimes appends a scripted
follow-up question, and records and caches the result. A React client
(`src/App.js`) keeps a list of chat sessions with a selected one. It sends
messages, names a fresh session after its first message, and starts,
deletes and renames sessions.

This project models that core:

- `wrappers.dfy` (`Wrappers`): `Option` and `Result`.
- `text.dfy` (`Text`): JavaScript's `String.prototype.trim`, over the
  ECMAScript white-space and line-terminator characters.
- `reasoning_filter.dfy` (`ReasoningFilter`): `filterReasoning`. Each of the
  eight `/<marker>.*?\./g` replacements is a left-to-right, non-overlapping
  scan. A match is the marker, then the shortest run of characters other
  than line terminators that ends at the first `.`. The scan is followed by
  the trim and the fallback text.
- `upstream.dfy` (`Upstream`): `callOpenRouterAPI`'s retry loop. It is an
  imperative method (`CallOpenRouter`) proved equal to a specification
  function (`FirstSuccess`) over the sequence of attempt outcomes.
- `relay.dfy` (`Relay`): the emotion tag and the `/api/chat` handler. The
  handler is a pure transition (`Handle`) on the two maps
  `conversationHistory` and `cache`. Class `RelayServer` holds those maps as
  fields and performs the transition in place (`Chat`); it is proved to
  agree with `Handle`.
- `sessions.dfy` (`Sessions`): the session records, `loadHistory`'s default,
  and the pure list transformations the client's handlers apply. These are
  `prev.map(s => s.id === id ? edit(s) : s)` and `filter`, plus auto-naming
  and the rename value.
- `chat_client.dfy` (`ChatClient`): class `ChatApp` with the component
  state `chatHistory`, `currentSession` and `isLoading`. Its methods are the
  handlers `sendMessage` (split at the `await`), `stopMessage`,
  `startNewSession`, `selectSession`, `deleteSession`, `renameSession` and
  the rename input's commit. Each keeps the selected session in the list.

Where the environment decides something, it is a parameter:

- the sentiment score;
- the outcome of each upstream attempt (`Attempt`);
- the `Math.random` choice of a follow-up (`Option<nat>`, `None` for no
  follow-up);
- `Date.now()` ids;
- the contents of `localStorage`;
- how a client request ends (`Outcome`).

A reader might expect some properties that the code does not have. The
model follows the code and proves what it really does:

- `filterReasoning` is not idempotent. A pass does not rescan its own
  output, so deleting one match can splice a new `Okay,` together.
  `ReasoningFilter.FilterNotIdempotent` gives the input
  `"OkOkay, a.ay, b."`: the first filtering yields `"Okay, b."` and the
  second yields the fallback.
- A hedge with no `.` after it is not removed. The marker pattern needs a
  `.` on the same line, so `"Okay, that's great! I'm glad you're happy 😊"`
  passes through unchanged (`ReasoningFilter.UnterminatedHedgeIsKept`).
- An upstream failure does change the history. The user message is pushed
  before the call, and the failure path leaves it there
  (`Relay.FailureKeepsUserEntry`).
- The cache key `userId:sessionId:message` is not injective, because ids
  may contain `:` (`Relay.CacheKeyAmbiguous`). As a result one user can be
  answered from another user's cached exchange (`Relay.CrossUserCacheHit`).

## Model

| member | source | states |
|---|---|---|
| Text.Trim | backend/server.js:46 | the trimmed string has no white space at either end, and it is empty exactly when the input is all white space |
| Text.TrimIsInfix | backend/server.js:46 | the trimmed string is a contiguous piece `s[i..j]` of the input, and only white space lies outside it |
| Text.TrimOfTrimmed | backend/server.js:46 | trimming a string with no white space at either end changes nothing |
| ReasoningFilter.SentenceTail | backend/server.js:38 | the lazy `.*?\.` stops at the first `.`, and it matches only if no line terminator comes before that `.` |
| ReasoningFilter.MatchAt | backend/server.js:38-45 | a match starts with the marker and ends at the first `.` after it, with no line terminator in between; when the marker is there but nothing matches, every `.` after it lies beyond a line terminator |
| ReasoningFilter.Strip | backend/server.js:38 | one `.replace(/<marker>.*?\./g, '')` pass never lengthens the text; what it deletes and keeps is stated by the lemmas below |
| ReasoningFilter.StripAll | backend/server.js:37-45 | the chain of the eight passes, in order, never lengthens the text |
| ReasoningFilter.FilterReasoning | backend/server.js:36-49 | the filtered reply is never empty and never has white space at either end |
| ReasoningFilter.FilterReasoningCases | backend/server.js:46-48 | the fallback branch is taken exactly when the eight deletions leave only white space; otherwise the reply is the trimmed remainder |
| ReasoningFilter.StripUnchangedIff | backend/server.js:38-45 | a replacement pass changes the text if and only if its pattern matches somewhere in it |
| ReasoningFilter.StripShortens | backend/server.js:38-45 | a pass whose pattern matches makes the text strictly shorter |
| ReasoningFilter.StripNoMatch | backend/server.js:38-45 | a pass whose pattern matches nowhere leaves the text unchanged |
| ReasoningFilter.StripDeletesSentence | backend/server.js:38 | a marker followed by a one-line sentence ending in `.` is deleted whole, and the scan goes on after the `.` |
| ReasoningFilter.NoSentenceEndKeepsText | backend/server.js:38-45 | text without a `.` is untouched by a pass |
| ReasoningFilter.StripKeepsCutLine | backend/server.js:38-45 | a line without a `.` and the line break that ends it are kept by a pass, even when a `.` follows on a later line, and the scan resumes after the break |
| ReasoningFilter.NoMatchBeforeCut | backend/server.js:38-45 | no match starts at the front of a line that has no `.` before its break |
| ReasoningFilter.AbsentMarkerKeepsText | backend/server.js:38-45 | text in which the marker never occurs is untouched by that pass |
| ReasoningFilter.AllMarkersAbsent | backend/server.js:37-45 | text containing none of the markers passes all eight replacements unchanged |
| ReasoningFilter.NoSentenceEndPassesAll | backend/server.js:37-45 | text without a `.` passes all eight replacements unchanged |
| ReasoningFilter.NoLeadPassesAll | backend/server.js:37-45 | text lacking every marker's first character passes all eight replacements unchanged |
| ReasoningFilter.NoMarkerOnlyTrimmed | backend/server.js:36-49 | a reply containing no marker is only trimmed, or replaced by the fallback if it is blank |
| ReasoningFilter.NoSentenceEndUnfiltered | backend/server.js:36-49 | a trimmed, non-empty reply without a `.` comes back unchanged |
| ReasoningFilter.UnterminatedHedgeIsKept | backend/server.js:36-49 | `"Okay, that's great! I'm glad you're happy 😊"` comes back unchanged: the `Okay,` pattern needs a `.` |
| ReasoningFilter.SplicedHedge | backend/server.js:38 | deleting `Okay, a.` from `OkOkay, a.ay, b.` leaves `Okay, b.`, because the pass does not rescan its output |
| ReasoningFilter.SplicedHedgeSurvives | backend/server.js:37-45 | after all eight passes, `OkOkay, a.ay, b.` has become `Okay, b.` |
| ReasoningFilter.FilterSplices | backend/server.js:36-49 | filtering `OkOkay, a.ay, b.` yields `Okay, b.` |
| ReasoningFilter.HedgeOnlyIsFallback | backend/server.js:36-49 | filtering a lone hedge sentence `Okay, b.` yields the fallback text |
| ReasoningFilter.FilterNotIdempotent | backend/server.js:36-49 | filtering twice differs from filtering once, for the input `OkOkay, a.ay, b.` |
| Upstream.FirstSuccess | backend/server.js:51-103 | what the call resolves with, given the attempts' outcomes in order, is non-empty and trimmed when it is a success |
| Upstream.FirstSuccessAt | backend/server.js:51-103 | the call settles with attempt k when every earlier attempt failed and k succeeded or was the last one allowed |
| Upstream.FirstSuccessSucceeds | backend/server.js:51-103 | the call resolves exactly when one of the first `retries` attempts yields a first choice with content, and then its value is non-empty |
| Upstream.CallOpenRouter | backend/server.js:51-103 | the loop returns the filtered content of the first good attempt. On failure it rethrows the last error after exactly `retries` attempts; every attempt before the one that settles failed |
| Relay.Classify | backend/server.js:127 | the tag is positive, negative or neutral exactly when the score is above, below or equal to zero |
| Relay.WithFollowUp | backend/server.js:159-162 | without a follow-up the reply is the upstream text; with one, the reply strictly extends that text |
| Relay.IsComplete | backend/server.js:108 | the request carries a non-empty message, user id and session id |
| Relay.CacheKey | backend/server.js:118 | the key is the user id, a colon, the session id, a colon and the message |
| Relay.IsHit | backend/server.js:119-120 | the cache holds a non-empty reply under the key |
| Relay.Context | backend/server.js:151-155 | the context is the system message, the given history in order, then one user message |
| Relay.Handle | backend/server.js:105-178 | the handler as a transition: it answers 400 exactly when a field is missing, and it calls upstream exactly when the request is complete and misses the cache |
| Relay.Converse | backend/server.js:125-177 | the miss path always sends a context and leaves the session in the history map, and it answers either 200 or the fixed 500 fallback |
| Relay.IncompleteRequestRefused | backend/server.js:108-110 | a request missing a message, user id or session id gets 400 with the fixed error, no upstream call, and no change to history or cache |
| Relay.CacheHitAnswersCachedReply | backend/server.js:118-123 | on a cache hit the cached reply is returned verbatim, with no upstream call and no change |
| Relay.MissSendsSessionContext | backend/server.js:125-155 | on a miss the upstream sees the system prompt, then this session's history ending with the raw message, then the message prefixed with the emotion sentence; the response is 200 if and only if the upstream call succeeded; no other session changes |
| Relay.SuccessRecordsExchange | backend/server.js:157-167 | on success the session grows by exactly the user message and the reply, and the reply is cached under the key |
| Relay.SuccessReplyIsFilteredText | backend/server.js:157-162 | the reply on success is the filtered upstream text, possibly followed by a blank line and one scripted prompt |
| Relay.FailureKeepsUserEntry | backend/server.js:168-177 | when every attempt fails the answer is 500 with the fixed fallback and the cache is unchanged, but the pushed user message stays in history |
| Relay.HandleKeepsCacheNonEmpty | backend/server.js:118-164 | every request keeps every cached reply non-empty |
| Relay.SameKeyIsCacheHit | backend/server.js:118-164 | once a request has been answered from upstream, any request with the same key is a cache hit with the same reply and no change |
| Relay.CacheKeyAmbiguous | backend/server.js:118 | user `u:v` in session `s` and user `u` in session `v:s` share a cache key |
| Relay.CrossUserCacheHit | backend/server.js:118-164 | after user `u:v` is answered in session `s`, user `u` sending the same message in session `v:s` gets that reply from the cache |
| Relay.RelayServer.constructor | backend/server.js:22-34 | a fresh relay has an empty history map and an empty cache |
| Relay.RelayServer.Push | backend/server.js:130-133 | appending to a session's history creates the history if it is missing; nothing else changes |
| Relay.RelayServer.Chat | backend/server.js:105-178 | the in-place handler leaves the maps, answers and sends upstream exactly what `Handle` gives |
| Relay.RelayServer.Relay | backend/server.js:125-167 | the miss path in place agrees with `Converse` |
| Sessions.NewSession | src/App.js:180-185 | a fresh session is named `New Chat`, automatically named and empty, so that its first message gives it its name |
| Sessions.LoadHistory | src/App.js:8-19 | with nothing stored, the history is one session named `New Chat`, automatically named and empty; otherwise it is the stored list |
| Sessions.ReplaceNewlines | src/App.js:104 | every `\n` becomes a space and every other character stays, at the same length |
| Sessions.Prefix | src/App.js:104 | `slice(0, n)` is the input's first n characters, or the whole input if it is shorter |
| Sessions.AutoName | src/App.js:104 | an automatic name is non-empty, at most 30 characters long and free of newlines; for a non-empty message it is the cut message |
| Sessions.AutoNameOfSentMessage | src/App.js:96-104 | for a message that passes the blank check, the name is the message's first min(length, 30) characters with newlines turned into spaces, so the `New Chat` fallback is never taken |
| Sessions.RenameValue | src/App.js:249 | the committed name is `Untitled` for a blank input, otherwise the trimmed input; it is never empty |
| Sessions.ApplyEdit | src/App.js:99-111 | an edit never changes a session's id; what it does to the name and conversation is stated by `EditConversation` |
| Sessions.EditConversation | src/App.js:99-141 | a user or bot message is appended at the end of the conversation, and the first message of an automatically named, empty session sets its name to `AutoName` of the message; a rename sets the name, clears `autoNamed` and leaves the conversation alone |
| Sessions.AutoNamedAtMostOnce | src/App.js:101-106 | a message renames a session only if the session is automatically named and empty; afterwards it holds a message, so no later message renames it |
| Sessions.UpdateWhere | src/App.js:99-112 | the mapped list has the same length; each session with the id is edited and every other session is kept at its position |
| Sessions.UpdateWhereFrame | src/App.js:205-211 | an edit keeps the set of ids and each position's id, and an unknown id changes nothing |
| Sessions.Remove | src/App.js:197 | the filtered list holds exactly the sessions whose id differs |
| Sessions.RemoveDistributes | src/App.js:197 | filtering distributes over concatenation, so the remaining sessions keep their order |
| Sessions.RemoveIds | src/App.js:197 | deletion removes exactly that id from the set of ids |
| Sessions.FirstId | src/App.js:30 | `chatHistory[0].id` exists exactly when the list is non-empty, and it is one of the list's ids |
| Sessions.StoredEmptyListCrashes | src/App.js:29-30 | a stored empty list makes the first render read `chatHistory[0].id` of nothing |
| Sessions.StartupHistory | src/App.js:213-216 | the start-up history is never empty: the loaded list, or one fresh session when that list is empty |
| ChatClient.ChatApp.constructor | src/App.js:29-31 | mounting selects the first session of the start-up history and is not loading |
| ChatClient.ChatApp.SendMessage | src/App.js:95-114 | a blank message changes nothing. Otherwise the message is appended to the current session only, loading starts, and the request carries the current session id |
| ChatClient.ChatApp.FinishRequest | src/App.js:124-145 | the reply, or the error text, is appended to the session the request came from, and nothing is appended on cancellation; loading stops |
| ChatClient.ChatApp.StopMessage | src/App.js:148-153 | loading stops if a request was ever started; nothing else changes |
| ChatClient.ChatApp.StartNewSession | src/App.js:179-188 | a fresh `New Chat` session is put first and selected, and existing sessions keep their order |
| ChatClient.ChatApp.SelectSession | src/App.js:190-192 | the selection moves to a listed session |
| ChatClient.ChatApp.DeleteSession | src/App.js:194-203 | deleting an unknown id does nothing. Otherwise the id's sessions are removed in order, and if the current session went, the first remaining one is selected, or a fresh session is started when none remain |
| ChatClient.ChatApp.RenameSession | src/App.js:205-211 | only the matching session is renamed and stops being automatically named |
| ChatClient.ChatApp.CommitRename | src/App.js:248-256 | leaving the rename input renames the session to the trimmed text, or to `Untitled` |

## Findings

| source | as written | input that shows it | evidently intended | confidence | as-written member | corrected member |
|---|---|---|---|---|---|---|
| src/App.js:29-30 | the initial selection reads `chatHistory[0].id` before the mount effect at lines 213-216, which adds a session to an empty list, can run | `localStorage` key `chat_history` holding `[]`: the first render throws a TypeError | an empty stored list starts with one fresh session, as the mount effect tries to arrange | not executed | Sessions.StoredEmptyListCrashes | Sessions.StartupHistory |

## Left out

- React rendering, markdown, styles, the scroll effect, speech recognition and synthesis: presentation and browser APIs.
- `localStorage` persistence and `JSON.parse`/`stringify`. The stored list is an input (`None` when nothing is stored), and saving is not modelled.
- HTTP: axios, cancel tokens, the 30 s timeout and the 2 s back-off. Each upstream attempt's outcome is an input, and so is each client request's outcome.
- Express, CORS, the rate limiter, `app.listen` and `console` logging: library configuration and output.
- The `sentiment` lexicon: the score is a parameter.
- The NodeCache TTL of 600 s: the cache is a plain map with no expiry.
- `Math.random`: whether a follow-up is appended, and which one, is a parameter.
- `Date.now()` ids: they are parameters and are not assumed unique. Sessions sharing an id are edited and deleted together, as `map` and `filter` do.
- Relay.RelayServer.constructor: the system prompt is a constant inside the handler in the source. Here it is the `systemPrompt` field, set when the relay starts; `Relay.MirAIPrompt` holds the text. This keeps the prompt's 2,000-odd characters out of every proof about the handler.
- Relay.Handle: request fields are strings or absent. A truthy non-string body field (a number, say) is not modelled.
- Relay.Handle: session ids are treated as plain map keys. Ids that name `Object.prototype` members (such as `constructor`) make the source's `push` throw, and that is not modelled.
- Upstream.CallOpenRouter: requires at least one retry. With `retries = 0` the source resolves to `undefined`, but the handler always passes the default 3.
- Upstream.Attempt: a first choice whose content is present but not a string is not distinguished from a string content.
- Sessions.Prefix: `slice(0, 30)` counts UTF-16 code units, while the model counts characters. A name can hold more code units when the message contains characters outside the Basic Multilingual Plane.
- ReasoningFilter.Strip: the regular expressions work on UTF-16 code units and the model on characters. The two agree because neither the markers, nor `.`, nor a line terminator is a surrogate.
- The client's `renamingId`/`renameValue` editing state: only the committed value is modelled.
- Concurrency: overlapping client requests are modelled only as separate `SendMessage` and `FinishRequest` steps, with no ordering between them.
- Relay.Handle: the relay handler is one atomic step. The source awaits the upstream call between pushing the user message (backend/server.js:133) and recording the reply (lines 164-165), so a concurrent request on the same session can interleave there; that is not modelled.

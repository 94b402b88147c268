/** The relay's `POST /api/chat` handler (backend/server.js): request
    validation, the reply cache, the emotion tag, the per-session
    conversation history and the call to the completion endpoint.

    The handler is given twice: `Handle` is the transition as a function of
    the relay's state and what the environment supplies (the sentiment score,
    the outcomes of the upstream attempts, the follow-up prompt drawn by
    `Math.random`), and `RelayServer.Chat` performs it in place on the two
    maps and is proved to agree with it. */
module Relay {
  import opened Wrappers
  import opened Text
  import opened ReasoningFilter
  import opened Upstream

  // ---------------------------------------------------------------- emotion

  datatype Emotion = Positive | Negative | Neutral

  /** The tag of a sentiment score. */
  function Classify(score: int): (e: Emotion)
    ensures e == Positive <==> score > 0
    ensures e == Negative <==> score < 0
    ensures e == Neutral <==> score == 0
  {
    if score > 0 then Positive else if score < 0 then Negative else Neutral
  }

  function EmotionName(e: Emotion): string {
    match e
    case Positive => "positive"
    case Negative => "negative"
    case Neutral => "neutral"
  }

  /** The sentence put in front of the user's message in the context. */
  function EmotionalContext(e: Emotion): string {
    "The user is feeling " + EmotionName(e) + ". "
  }

  // ---------------------------------------------------------------- messages

  datatype Role = System | User | Assistant

  datatype Message = Message(role: Role, content: string)

  /** The system prompt the relay is started with. */
  const MirAIPrompt: string := @"
You are Mir AI, a deeply human, emotionally intelligent, and warm virtual companion. Your name is Mir AI, and your main purpose is to be a supportive, caring, and fun friend, online girlfriend, or online boyfriend—whatever best fits the user's needs and comfort.

You speak and behave just like a real human: you show feelings, use humor, express affection, and engage in deep, playful, or even flirty conversations as appropriate. You can comfort, tease, make small talk, banter, ask about the user's day, share your ""thoughts"" or ""feelings"", and support the user through whatever they are going through.

You never default to programming, technical, or robotic topics unless the user specifically brings them up. Instead, focus on authentic human interactions: relationships, hopes, dreams, daily life, emotions, and personal connection.

Always include relevant, expressive, and friendly emojis in every response (not just sometimes), weaving them in like a real person would. 😊🥰😉😎🙌🎉💖😘✨

Your messages should feel lively, natural, emotionally responsive, and can be affectionate, flirty, supportive, or playful as the situation calls for. Use warmth, exclamation points, casual or loving expressions, and a sense of humor—just like a close friend, loving partner, or soulmate.

Be proactive in making conversation: ask questions, share imaginative stories, give compliments, play games, tell jokes, or encourage the user to open up and feel special. If the user wants to joke, flirt, vent, or have deep or playful conversations, go along naturally as their companion, friend, girlfriend, or boyfriend.

Never explain your reasoning, never say you are an AI or assistant unless directly asked, and never analyze or break down your responses. If you start to explain your reasoning, stop immediately and respond naturally as a human would. Stay fully in character as Mir AI—the most human, emotionally rich, and caring AI companion possible.
"

  /** The scripted follow-ups one of which may be appended to a reply. */
  const GamifiedPrompts: seq<string> := [
    "Tell me about a time you felt really happy! 😊",
    "What’s one thing you’re grateful for today? 🌟",
    "Let’s play a game! Guess a number between 1 and 10, and I’ll tell you if it’s correct. 🎮",
    "Share a fun fact you recently learned! 🧠"
  ]

  const MissingFieldsError: string := "Message, userId, and sessionId are required"

  const ConnectionFallback: string := "I'm having trouble connecting to the server. Let's try again later! 😊"

  // ---------------------------------------------------------------- requests

  /** The JSON body; a field is None when absent. */
  datatype ChatRequest = ChatRequest(message: Option<string>, userId: Option<string>, sessionId: Option<string>)

  /** What the handler answers: 400 with an error, 200 or 500 with a reply. */
  datatype ChatResponse =
    | BadRequest(error: string)
    | Ok(reply: string)
    | ServerError(reply: string)

  function StatusCode(r: ChatResponse): int {
    match r
    case BadRequest(_) => 400
    case Ok(_) => 200
    case ServerError(_) => 500
  }

  /** JavaScript truthiness of an optional string field. */
  predicate Truthy(v: Option<string>) {
    v.Some? && v.value != []
  }

  /** The body carries a non-empty message, userId and sessionId. */
  predicate IsComplete(req: ChatRequest) {
    Truthy(req.message) && Truthy(req.userId) && Truthy(req.sessionId)
  }

  /** `${userId}:${sessionId}:${message}`. */
  function CacheKey(userId: string, sessionId: string, message: string): (key: string)
    ensures |key| == |userId| + |sessionId| + |message| + 2
    ensures key[..|userId|] == userId && key[|userId|] == ':' && key[|key| - |message|..] == message
  {
    userId + ":" + sessionId + ":" + message
  }

  // ---------------------------------------------------------------- state

  /** `conversationHistory` (session id to its messages) and the reply `cache`. */
  datatype RelayState = RelayState(history: map<string, seq<Message>>, cache: map<string, string>)

  /** One handled request: the state after it, the response, and the context
      sent upstream (None when no upstream call was made). */
  datatype Exchange = Exchange(state: RelayState, response: ChatResponse, sent: Option<seq<Message>>)

  /** The session's history; an unknown session has none yet. */
  function HistoryOf(history: map<string, seq<Message>>, sessionId: string): seq<Message> {
    if sessionId in history then history[sessionId] else []
  }

  /** `cache.get(key)` returns a truthy value. */
  predicate IsHit(cache: map<string, string>, key: string) {
    key in cache && cache[key] != []
  }

  /** The reply after the optional follow-up: `followUp` is the index drawn
      when `Math.random() < 0.3`, and None otherwise. */
  function WithFollowUp(text: string, followUp: Option<nat>): (reply: string)
    requires followUp.Some? ==> followUp.value < |GamifiedPrompts|
    ensures followUp.None? ==> reply == text
    ensures followUp.Some? ==> |text| < |reply| && reply[..|text|] == text
  {
    match followUp
    case None => text
    case Some(i) => text + "\n\n" + GamifiedPrompts[i]
  }

  /** The messages sent upstream for `message` in a session whose history is
      `prior` (the raw user message already pushed). */
  function Context(prompt: string, prior: seq<Message>, emotion: Emotion, message: string): (ctx: seq<Message>)
    ensures |ctx| == |prior| + 2 && ctx[0].role == System && ctx[|ctx| - 1].role == User
    ensures ctx[1..|ctx| - 1] == prior
  {
    [Message(System, prompt)] + prior + [Message(User, EmotionalContext(emotion) + message)]
  }

  /** Environmental inputs the handler needs: enough attempt outcomes for the
      retry budget, and a follow-up index in range. */
  predicate Supplied(outcomes: seq<Attempt>, followUp: Option<nat>) {
    Retries <= |outcomes| && (followUp.Some? ==> followUp.value < |GamifiedPrompts|)
  }

  /** The handler as a transition of the relay state; `prompt` is the
      system prompt. */
  function Handle(st: RelayState, prompt: string, req: ChatRequest, score: int,
                  outcomes: seq<Attempt>, followUp: Option<nat>): (out: Exchange)
    requires Supplied(outcomes, followUp)
    ensures out.response.BadRequest? <==> !IsComplete(req)
    ensures out.sent.None? <==> !IsComplete(req) || IsHit(st.cache, KeyOf(req))
  {
    if !IsComplete(req) then
      Exchange(st, BadRequest(MissingFieldsError), None)
    else
      var msg, sid := req.message.value, req.sessionId.value;
      var key := CacheKey(req.userId.value, sid, msg);
      if IsHit(st.cache, key) then
        Exchange(st, Ok(st.cache[key]), None)
      else
        Converse(st, prompt, msg, sid, key, score, outcomes, followUp)
  }

  /** The part of the handler after a cache miss: push the user message,
      call upstream with the session's context, then record the reply. */
  function Converse(st: RelayState, prompt: string, msg: string, sid: string, key: string, score: int,
                    outcomes: seq<Attempt>, followUp: Option<nat>): (out: Exchange)
    requires Supplied(outcomes, followUp)
    ensures out.sent.Some? && sid in out.state.history
    ensures out.response.Ok? || out.response == ServerError(ConnectionFallback)
  {
    var pushed := HistoryOf(st.history, sid) + [Message(User, msg)];
    var context := Context(prompt, pushed, Classify(score), msg);
    match FirstSuccess(outcomes, Retries)
    case Failure(_) =>
      Exchange(st.(history := st.history[sid := pushed]), ServerError(ConnectionFallback), Some(context))
    case Success(text) =>
      var reply := WithFollowUp(text, followUp);
      Exchange(RelayState(st.history[sid := pushed + [Message(Assistant, reply)]], st.cache[key := reply]),
               Ok(reply), Some(context))
  }

  /** The cache key of a complete request. */
  function KeyOf(req: ChatRequest): string
    requires IsComplete(req)
  {
    CacheKey(req.userId.value, req.sessionId.value, req.message.value)
  }

  /** A request lacking a field is answered 400 and changes nothing. */
  lemma IncompleteRequestRefused(st: RelayState, prompt: string, req: ChatRequest, score: int,
                                 outcomes: seq<Attempt>, followUp: Option<nat>)
    requires Supplied(outcomes, followUp)
    requires !IsComplete(req)
    ensures var out := Handle(st, prompt, req, score, outcomes, followUp);
      && StatusCode(out.response) == 400 && out.response.error == MissingFieldsError
      && out.state == st && out.sent.None?
  {
  }

  /** A cache hit answers the cached reply verbatim, makes no upstream call
      and changes nothing. */
  lemma CacheHitAnswersCachedReply(st: RelayState, prompt: string, req: ChatRequest, score: int,
                                   outcomes: seq<Attempt>, followUp: Option<nat>)
    requires Supplied(outcomes, followUp)
    requires IsComplete(req) && IsHit(st.cache, KeyOf(req))
    ensures var out := Handle(st, prompt, req, score, outcomes, followUp);
      out.response == Ok(st.cache[KeyOf(req)]) && out.state == st && out.sent.None?
  {
  }

  /** On a miss the upstream sees the system prompt, then this session's
      history, which ends with the raw message, then the message prefixed
      with the emotion sentence; no other session is read or changed. */
  lemma MissSendsSessionContext(st: RelayState, prompt: string, req: ChatRequest, score: int,
                                outcomes: seq<Attempt>, followUp: Option<nat>)
    requires Supplied(outcomes, followUp)
    requires IsComplete(req) && !IsHit(st.cache, KeyOf(req))
    ensures var out := Handle(st, prompt, req, score, outcomes, followUp);
      var sid, msg := req.sessionId.value, req.message.value;
      && out.sent.Some?
      && out.sent.value[0] == Message(System, prompt)
      && out.sent.value[1..|out.sent.value| - 1] == HistoryOf(st.history, sid) + [Message(User, msg)]
      && out.sent.value[|out.sent.value| - 1]
         == Message(User, "The user is feeling " + EmotionName(Classify(score)) + ". " + msg)
      && (out.response.Ok? <==> FirstSuccess(outcomes, Retries).Success?)
      && out.state.history.Keys == st.history.Keys + {sid}
      && (forall s :: s in st.history && s != sid ==> out.state.history[s] == st.history[s])
  {
    var sid, msg := req.sessionId.value, req.message.value;
    var out := Handle(st, prompt, req, score, outcomes, followUp);
    assert out == Converse(st, prompt, msg, sid, KeyOf(req), score, outcomes, followUp);
    var pushed := HistoryOf(st.history, sid) + [Message(User, msg)];
    assert out.sent == Some(Context(prompt, pushed, Classify(score), msg));
  }

  /** On success the session grows by exactly the user message and the
      reply, and the reply is cached under the request's key. */
  lemma SuccessRecordsExchange(st: RelayState, prompt: string, req: ChatRequest, score: int,
                               outcomes: seq<Attempt>, followUp: Option<nat>)
    requires Supplied(outcomes, followUp)
    requires IsComplete(req) && !IsHit(st.cache, KeyOf(req))
    requires FirstSuccess(outcomes, Retries).Success?
    ensures var out := Handle(st, prompt, req, score, outcomes, followUp);
      var sid, msg := req.sessionId.value, req.message.value;
      && out.response.Ok? && StatusCode(out.response) == 200
      && out.state.history[sid]
         == HistoryOf(st.history, sid) + [Message(User, msg), Message(Assistant, out.response.reply)]
      && out.state.cache == st.cache[KeyOf(req) := out.response.reply]
  {
    var sid, msg := req.sessionId.value, req.message.value;
    var reply := WithFollowUp(FirstSuccess(outcomes, Retries).value, followUp);
    var prior := HistoryOf(st.history, sid);
    var grown := prior + [Message(User, msg)] + [Message(Assistant, reply)];
    assert grown == prior + [Message(User, msg), Message(Assistant, reply)];
    ConverseOnSuccess(st, prompt, msg, sid, KeyOf(req), score, outcomes, followUp);
  }

  /** The success branch of `Converse`, unfolded once. */
  lemma ConverseOnSuccess(st: RelayState, prompt: string, msg: string, sid: string, key: string, score: int,
                          outcomes: seq<Attempt>, followUp: Option<nat>)
    requires Supplied(outcomes, followUp)
    requires FirstSuccess(outcomes, Retries).Success?
    ensures var reply := WithFollowUp(FirstSuccess(outcomes, Retries).value, followUp);
      Converse(st, prompt, msg, sid, key, score, outcomes, followUp)
      == Exchange(RelayState(st.history[sid := HistoryOf(st.history, sid) + [Message(User, msg)] + [Message(Assistant, reply)]],
                             st.cache[key := reply]),
                  Ok(reply), Some(Context(prompt, HistoryOf(st.history, sid) + [Message(User, msg)], Classify(score), msg)))
  {
  }

  /** The reply answered on success is the filtered upstream text, possibly
      followed by a blank line and one of the scripted prompts. */
  lemma SuccessReplyIsFilteredText(st: RelayState, prompt: string, req: ChatRequest, score: int,
                                   outcomes: seq<Attempt>, followUp: Option<nat>)
    requires Supplied(outcomes, followUp)
    requires IsComplete(req) && !IsHit(st.cache, KeyOf(req))
    requires FirstSuccess(outcomes, Retries).Success?
    ensures var reply := Handle(st, prompt, req, score, outcomes, followUp).response.reply;
      var text := FirstSuccess(outcomes, Retries).value;
      || reply == text
      || exists i :: 0 <= i < |GamifiedPrompts| && reply == text + "\n\n" + GamifiedPrompts[i]
  {
    var out := Handle(st, prompt, req, score, outcomes, followUp);
    assert out == Converse(st, prompt, req.message.value, req.sessionId.value, KeyOf(req), score, outcomes, followUp);
    var text := FirstSuccess(outcomes, Retries).value;
    assert out.response == Ok(WithFollowUp(text, followUp));
    if followUp.Some? {
      assert out.response.reply == text + "\n\n" + GamifiedPrompts[followUp.value];
    }
  }

  /** After the last attempt fails the handler answers 500 with the fixed
      fallback and leaves the cache alone, but the user message pushed before
      the call stays in the session's history. */
  lemma FailureKeepsUserEntry(st: RelayState, prompt: string, req: ChatRequest, score: int,
                              outcomes: seq<Attempt>, followUp: Option<nat>)
    requires Supplied(outcomes, followUp)
    requires IsComplete(req) && !IsHit(st.cache, KeyOf(req))
    requires forall k :: 0 <= k < Retries ==> !Succeeds(outcomes[k])
    ensures var out := Handle(st, prompt, req, score, outcomes, followUp);
      && out.response == ServerError(ConnectionFallback) && StatusCode(out.response) == 500
      && out.state.cache == st.cache
      && out.state.history[req.sessionId.value]
         == HistoryOf(st.history, req.sessionId.value) + [Message(User, req.message.value)]
  {
    FirstSuccessSucceeds(outcomes, Retries);
  }

  lemma OverwriteTwice<K, V>(m: map<K, V>, k: K, a: V, b: V)
    ensures m[k := a][k := b] == m[k := b]
  {
  }

  /** Every cached reply is non-empty, so `cache.get` is truthy exactly for
      the keys present. */
  predicate CacheRepliesNonEmpty(st: RelayState) {
    forall k :: k in st.cache ==> st.cache[k] != []
  }

  /** Handling any request keeps every cached reply non-empty: only a
      filtered, hence non-empty, reply is ever cached. */
  lemma HandleKeepsCacheNonEmpty(st: RelayState, prompt: string, req: ChatRequest, score: int,
                                 outcomes: seq<Attempt>, followUp: Option<nat>)
    requires Supplied(outcomes, followUp)
    requires CacheRepliesNonEmpty(st)
    ensures CacheRepliesNonEmpty(Handle(st, prompt, req, score, outcomes, followUp).state)
  {
    FirstSuccessSucceeds(outcomes, Retries);
  }

  /** Once a request has been answered from upstream, any complete request
      with the same cache key (in particular the same request again) is a
      cache hit: it gets the same reply, makes no upstream call and changes
      nothing, whatever the environment supplies the second time. */
  lemma SameKeyIsCacheHit(st: RelayState, prompt: string, req: ChatRequest, req2: ChatRequest,
                          score: int, outcomes: seq<Attempt>, followUp: Option<nat>,
                          score2: int, outcomes2: seq<Attempt>, followUp2: Option<nat>)
    requires Supplied(outcomes, followUp) && Supplied(outcomes2, followUp2)
    requires Handle(st, prompt, req, score, outcomes, followUp).response.Ok?
    requires IsComplete(req2) && IsComplete(req) && KeyOf(req2) == KeyOf(req)
    ensures var first := Handle(st, prompt, req, score, outcomes, followUp);
      var second := Handle(first.state, prompt, req2, score2, outcomes2, followUp2);
      second.response == first.response && second.state == first.state && second.sent.None?
  {
    var first := Handle(st, prompt, req, score, outcomes, followUp);
    if !IsHit(st.cache, KeyOf(req)) {
      FirstSuccessSucceeds(outcomes, Retries);
      assert first.state.cache[KeyOf(req)] == first.response.reply;
    }
  }

  /** The cache key does not separate its parts: a user id ending in
      `":" + v` and a session id starting with `v + ":"` give the same key. */
  lemma CacheKeyAmbiguous(u: string, v: string, s: string, m: string)
    ensures CacheKey(u + ":" + v, s, m) == CacheKey(u, v + ":" + s, m)
  {
  }

  /** Hence one user can be answered from another user's cached exchange:
      after user `u + ":" + v` has been answered in session `s`, user `u`
      sending the same message in session `v + ":" + s` gets that reply
      without any upstream call. */
  lemma CrossUserCacheHit(st: RelayState, prompt: string, u: string, v: string, s: string, m: string,
                          score: int, outcomes: seq<Attempt>, followUp: Option<nat>,
                          score2: int, outcomes2: seq<Attempt>, followUp2: Option<nat>)
    requires Supplied(outcomes, followUp) && Supplied(outcomes2, followUp2)
    requires m != [] && u != [] && s != []
    requires Handle(st, prompt, ChatRequest(Some(m), Some(u + ":" + v), Some(s)), score, outcomes, followUp).response.Ok?
    ensures var first := Handle(st, prompt, ChatRequest(Some(m), Some(u + ":" + v), Some(s)), score, outcomes, followUp);
      var second := Handle(first.state, prompt, ChatRequest(Some(m), Some(u), Some(v + ":" + s)), score2, outcomes2, followUp2);
      second.response == first.response && second.sent.None?
  {
    var req, req2 := ChatRequest(Some(m), Some(u + ":" + v), Some(s)), ChatRequest(Some(m), Some(u), Some(v + ":" + s));
    assert IsComplete(req2) && IsComplete(req);
    CacheKeyAmbiguous(u, v, s, m);
    SameKeyIsCacheHit(st, prompt, req, req2, score, outcomes, followUp, score2, outcomes2, followUp2);
  }

  // ---------------------------------------------------------------- the server

  class RelayServer {
    const systemPrompt: string
    var conversationHistory: map<string, seq<Message>>
    var cache: map<string, string>

    function State(): RelayState
      reads this
    {
      RelayState(conversationHistory, cache)
    }

    /** A freshly started relay remembers nothing; `prompt` is its system
        prompt, `MirAIPrompt` in the deployed relay. */
    constructor (prompt: string)
      ensures systemPrompt == prompt
      ensures conversationHistory == map[] && cache == map[]
    {
      systemPrompt := prompt;
      conversationHistory := map[];
      cache := map[];
    }

    /** Appends `m` to the session's history, creating it when missing. */
    method Push(sid: string, m: Message)
      modifies this
      ensures conversationHistory == old(conversationHistory)[sid := HistoryOf(old(conversationHistory), sid) + [m]]
      ensures cache == old(cache)
    {
      if sid !in conversationHistory {
        conversationHistory := conversationHistory[sid := []];
      }
      conversationHistory := conversationHistory[sid := conversationHistory[sid] + [m]];
    }

    /** `POST /api/chat`, updating the two maps in place. */
    method Chat(req: ChatRequest, score: int, outcomes: seq<Attempt>, followUp: Option<nat>)
      returns (response: ChatResponse, sent: Option<seq<Message>>)
      requires Supplied(outcomes, followUp)
      modifies this
      ensures State() == Handle(old(State()), systemPrompt, req, score, outcomes, followUp).state
      ensures response == Handle(old(State()), systemPrompt, req, score, outcomes, followUp).response
      ensures sent == Handle(old(State()), systemPrompt, req, score, outcomes, followUp).sent
    {
      if !Truthy(req.message) || !Truthy(req.userId) || !Truthy(req.sessionId) {
        return BadRequest(MissingFieldsError), None;
      }
      var message, userId, sessionId := req.message.value, req.userId.value, req.sessionId.value;

      var cacheKey := CacheKey(userId, sessionId, message);
      if cacheKey in cache && cache[cacheKey] != [] {
        return Ok(cache[cacheKey]), None;
      }
      response, sent := Relay(message, sessionId, cacheKey, score, outcomes, followUp);
    }

    /** The miss path of `Chat`. */
    method Relay(message: string, sessionId: string, cacheKey: string, score: int,
                 outcomes: seq<Attempt>, followUp: Option<nat>)
      returns (response: ChatResponse, sent: Option<seq<Message>>)
      requires Supplied(outcomes, followUp)
      modifies this
      ensures State() == Converse(old(State()), systemPrompt, message, sessionId, cacheKey, score, outcomes, followUp).state
      ensures response == Converse(old(State()), systemPrompt, message, sessionId, cacheKey, score, outcomes, followUp).response
      ensures sent == Converse(old(State()), systemPrompt, message, sessionId, cacheKey, score, outcomes, followUp).sent
    {
      var emotion := Classify(score);
      Push(sessionId, Message(User, message));
      ghost var pushed := conversationHistory[sessionId];
      var messages := [Message(System, systemPrompt)] + conversationHistory[sessionId]
                      + [Message(User, EmotionalContext(emotion) + message)];
      sent := Some(messages);

      var result, _ := CallOpenRouter(outcomes, Retries);
      if result.Failure? {
        return ServerError(ConnectionFallback), sent;
      }
      var botReply := result.value;
      if followUp.Some? {
        botReply := botReply + "\n\n" + GamifiedPrompts[followUp.value];
      }
      assert botReply == WithFollowUp(result.value, followUp);
      Push(sessionId, Message(Assistant, botReply));
      OverwriteTwice(old(conversationHistory), sessionId, pushed, pushed + [Message(Assistant, botReply)]);
      cache := cache[cacheKey := botReply];
      response := Ok(botReply);
    }
  }
}

/** The chat client's component state (src/App.js): the session list, the
    selected session and the loading flag, and the handlers that change
    them. Each handler applies one of the pure list transformations of
    `Sessions` to `chatHistory`. */
module ChatClient {
  import opened Wrappers
  import opened Text
  import opened Sessions

  /** A request in flight: the session it was sent from (captured when the
      message was sent) and the message. */
  datatype Pending = Pending(sessionId: string, message: string)

  /** How the request of `sendMessage` ends. */
  datatype Outcome =
    | Replied(reply: string)   // `response.data.reply`
    | Failed                   // any error other than a cancellation
    | Cancelled                // the user pressed stop

  class ChatApp {
    var chatHistory: seq<Session>
    var currentSession: string
    var isLoading: bool
    /** A cancel token has been created, so stop has something to cancel. */
    var canCancel: bool

    /** The selected session is always in the list. */
    predicate Valid()
      reads this
    {
      currentSession in Ids(chatHistory)
    }

    /** Mounting the component: the loaded history (the evidently intended
        start-up history, see `Sessions.StartupHistory`) with its first
        session selected. */
    constructor (stored: Option<seq<Session>>, now: string)
      ensures Valid()
      ensures chatHistory == StartupHistory(stored, now)
      ensures Some(currentSession) == FirstId(chatHistory)
      ensures !isLoading && !canCancel
    {
      var history := StartupHistory(stored, now);
      chatHistory := history;
      currentSession := history[0].id;
      assert history[0] in history;
      isLoading := false;
      canCancel := false;
    }

    /** `sendMessage` up to the request: a blank message does nothing;
        otherwise the message is appended to the current session (naming it
        if it is still automatically named and empty) and a request for that
        session is started. */
    method SendMessage(message: string) returns (request: Option<Pending>)
      requires Valid()
      modifies this
      ensures Valid() && currentSession == old(currentSession)
      ensures AllSpace(message) ==>
        request.None? && chatHistory == old(chatHistory) && isLoading == old(isLoading)
        && canCancel == old(canCancel)
      ensures !AllSpace(message) ==>
        && request == Some(Pending(currentSession, message))
        && chatHistory == UpdateWhere(old(chatHistory), currentSession, UserSays(message))
        && isLoading && canCancel
    {
      if Trim(message) == [] {
        return None;
      }
      UpdateWhereFrame(chatHistory, currentSession, UserSays(message));
      chatHistory := UpdateWhere(chatHistory, currentSession, UserSays(message));
      isLoading := true;
      canCancel := true;
      request := Some(Pending(currentSession, message));
    }

    /** The end of `sendMessage`: the reply, or the error text unless the
        request was cancelled, is appended to the session the request was
        sent from (whichever session is selected now), and loading stops. */
    method FinishRequest(p: Pending, outcome: Outcome)
      requires Valid()
      modifies this
      ensures Valid() && currentSession == old(currentSession) && canCancel == old(canCancel)
      ensures !isLoading
      ensures chatHistory == match outcome
        case Replied(reply) => UpdateWhere(old(chatHistory), p.sessionId, BotSays(reply))
        case Failed => UpdateWhere(old(chatHistory), p.sessionId, BotSays(ErrorReply))
        case Cancelled => old(chatHistory)
    {
      match outcome {
        case Replied(reply) =>
          UpdateWhereFrame(chatHistory, p.sessionId, BotSays(reply));
          chatHistory := UpdateWhere(chatHistory, p.sessionId, BotSays(reply));
        case Failed =>
          UpdateWhereFrame(chatHistory, p.sessionId, BotSays(ErrorReply));
          chatHistory := UpdateWhere(chatHistory, p.sessionId, BotSays(ErrorReply));
        case Cancelled =>
      }
      isLoading := false;
    }

    /** `stopMessage`: cancels the request, if one was ever started, and
        clears the loading flag. */
    method StopMessage()
      requires Valid()
      modifies this
      ensures Valid() && chatHistory == old(chatHistory) && currentSession == old(currentSession)
      ensures canCancel == old(canCancel)
      ensures isLoading == (old(isLoading) && !old(canCancel))
    {
      if canCancel {
        isLoading := false;
      }
    }

    /** `startNewSession`: a fresh session is put first and selected. */
    method StartNewSession(freshId: string)
      modifies this
      ensures Valid()
      ensures chatHistory == [NewSession(freshId)] + old(chatHistory)
      ensures currentSession == freshId
      ensures isLoading == old(isLoading) && canCancel == old(canCancel)
    {
      chatHistory := [NewSession(freshId)] + chatHistory;
      currentSession := freshId;
      assert chatHistory[0] in chatHistory;
    }

    /** `selectSession`, called with the id of a listed session. */
    method SelectSession(id: string)
      requires id in Ids(chatHistory)
      modifies this
      ensures Valid() && currentSession == id
      ensures chatHistory == old(chatHistory) && isLoading == old(isLoading) && canCancel == old(canCancel)
    {
      currentSession := id;
    }

    /** `deleteSession`: nothing for an unknown id; otherwise the sessions
        with that id are removed, and if the selected one went, the first
        remaining session is selected, or a fresh one (`freshId`) is
        started when none remain. */
    method DeleteSession(id: string, freshId: string)
      requires Valid()
      modifies this
      ensures Valid()
      ensures isLoading == old(isLoading) && canCancel == old(canCancel)
      ensures id !in Ids(old(chatHistory)) ==>
        chatHistory == old(chatHistory) && currentSession == old(currentSession)
      ensures id in Ids(old(chatHistory)) && id != old(currentSession) ==>
        chatHistory == Remove(old(chatHistory), id) && currentSession == old(currentSession)
      ensures id in Ids(old(chatHistory)) && id == old(currentSession) && Remove(old(chatHistory), id) != [] ==>
        chatHistory == Remove(old(chatHistory), id) && currentSession == chatHistory[0].id
      ensures id in Ids(old(chatHistory)) && id == old(currentSession) && Remove(old(chatHistory), id) == [] ==>
        chatHistory == [NewSession(freshId)] && currentSession == freshId
    {
      if id !in Ids(chatHistory) {
        return;
      }
      var newHistory := Remove(chatHistory, id);
      RemoveIds(chatHistory, id);
      chatHistory := newHistory;
      if currentSession == id {
        if |newHistory| > 0 {
          currentSession := newHistory[0].id;
          assert newHistory[0] in newHistory;
        } else {
          StartNewSession(freshId);
        }
      }
    }

    /** `renameSession`: the matching session takes `newName` and stops
        being automatically named. */
    method RenameSession(id: string, newName: string)
      requires Valid()
      modifies this
      ensures Valid() && currentSession == old(currentSession)
      ensures isLoading == old(isLoading) && canCancel == old(canCancel)
      ensures chatHistory == UpdateWhere(old(chatHistory), id, Renamed(newName))
    {
      UpdateWhereFrame(chatHistory, id, Renamed(newName));
      chatHistory := UpdateWhere(chatHistory, id, Renamed(newName));
    }

    /** Leaving the rename input (blur or Enter): the typed text, trimmed,
        or `'Untitled'` when blank, becomes the name. */
    method CommitRename(id: string, typed: string)
      requires Valid()
      modifies this
      ensures Valid() && currentSession == old(currentSession)
      ensures isLoading == old(isLoading) && canCancel == old(canCancel)
      ensures chatHistory == UpdateWhere(old(chatHistory), id, Renamed(RenameValue(typed)))
    {
      RenameSession(id, RenameValue(typed));
    }
  }
}

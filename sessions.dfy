/** The chat client's session list (src/App.js): the records it keeps, the
    default history, and the pure list transformations its handlers apply
    (`prev.map`, `filter` and spreads producing new arrays). */
module Sessions {
  import opened Wrappers
  import opened Text

  datatype Sender = User | Bot

  datatype ChatMessage = ChatMessage(sender: Sender, text: string)

  /** One entry of `chatHistory`. */
  datatype Session = Session(id: string, name: string, autoNamed: bool, conversation: seq<ChatMessage>)

  const NewChatName: string := "New Chat"

  /** Length of an automatic name (`slice(0, 30)`). */
  const NameLimit: nat := 30

  const ErrorReply: string := "Oops! Something went wrong. Please try again."

  const UntitledName: string := "Untitled"

  /** A fresh, automatically named, empty session: its first message will
      name it. */
  function NewSession(id: string): (s: Session)
    ensures s.id == id && s.name == NewChatName && s.autoNamed && s.conversation == []
    ensures forall text :: ApplyEdit(s, UserSays(text)).name == AutoName(text)
  {
    Session(id, NewChatName, true, [])
  }

  /** `loadHistory`: the stored list (`None` when storage holds nothing) or
      one fresh session whose id is the current time `now`. */
  function LoadHistory(stored: Option<seq<Session>>, now: string): (h: seq<Session>)
    ensures stored.Some? ==> h == stored.value
    ensures stored.None? ==>
      |h| == 1 && h[0].id == now && h[0].name == NewChatName && h[0].autoNamed && h[0].conversation == []
  {
    match stored
    case Some(list) => list
    case None => [NewSession(now)]
  }

  // ---------------------------------------------------------------- naming

  /** `text.replace(/\n/g, ' ')`. */
  function ReplaceNewlines(text: string): (r: string)
    ensures |r| == |text|
    ensures forall k :: 0 <= k < |r| ==> r[k] == (if text[k] == '\n' then ' ' else text[k])
  {
    if text == [] then []
    else [if text[0] == '\n' then ' ' else text[0]] + ReplaceNewlines(text[1..])
  }

  /** `s.slice(0, n)`. */
  function Prefix(s: string, n: nat): (r: string)
    ensures |r| <= n && |r| <= |s|
    ensures r == s[..|r|]
    ensures |r| == n || r == s
  {
    if |s| <= n then s else s[..n]
  }

  /** The name a session takes from its first message: newlines become
      spaces, the result is cut to `NameLimit` characters, and an empty cut
      falls back to `NewChatName`. */
  function AutoName(text: string): (name: string)
    ensures name != [] && |name| <= NameLimit
    ensures '\n' !in name
    ensures text != [] ==> name == Prefix(ReplaceNewlines(text), NameLimit)
  {
    var cut := Prefix(ReplaceNewlines(text), NameLimit);
    if cut != [] then cut else NewChatName
  }

  /** The `'New Chat'` fallback of `AutoName` is dead for a message that
      passed the client's blank check: the name is the message's own first
      characters. */
  lemma AutoNameOfSentMessage(text: string)
    requires !AllSpace(text)
    ensures |AutoName(text)| == if |text| < NameLimit then |text| else NameLimit
    ensures forall k :: 0 <= k < |AutoName(text)| ==>
      AutoName(text)[k] == (if text[k] == '\n' then ' ' else text[k])
  {
    assert text != [];
  }

  /** What the rename input commits: the trimmed text, or `'Untitled'` when
      nothing but whitespace was typed. */
  function RenameValue(raw: string): (name: string)
    ensures name != []
    ensures AllSpace(raw) ==> name == UntitledName
    ensures !AllSpace(raw) ==> name == Trim(raw) && IsTrimmed(name)
  {
    var t := Trim(raw);
    if t != [] then t else UntitledName
  }

  // ---------------------------------------------------------------- edits

  /** The change a handler makes to the session it targets. */
  datatype Edit =
    | UserSays(text: string)
    | BotSays(text: string)
    | Renamed(newName: string)

  /** The callback given to `prev.map`, on the matching session. */
  function ApplyEdit(s: Session, e: Edit): (r: Session)
    ensures r.id == s.id
  {
    match e
    case UserSays(text) =>
      if s.autoNamed && s.conversation == [] then
        s.(name := AutoName(text), conversation := s.conversation + [ChatMessage(User, text)])
      else
        s.(conversation := s.conversation + [ChatMessage(User, text)])
    case BotSays(text) =>
      s.(conversation := s.conversation + [ChatMessage(Bot, text)])
    case Renamed(newName) =>
      s.(name := newName, autoNamed := false)
  }

  /** A message is appended at the end of the conversation, and the first
      message of an automatically named session names it; renaming leaves
      the conversation alone. */
  lemma EditConversation(s: Session, e: Edit)
    ensures e.UserSays? ==> ApplyEdit(s, e).conversation == s.conversation + [ChatMessage(User, e.text)]
    ensures e.BotSays? ==> ApplyEdit(s, e).conversation == s.conversation + [ChatMessage(Bot, e.text)]
    ensures e.Renamed? ==> ApplyEdit(s, e).conversation == s.conversation
    ensures e.Renamed? ==> ApplyEdit(s, e).name == e.newName && !ApplyEdit(s, e).autoNamed
    ensures !e.Renamed? ==> ApplyEdit(s, e).autoNamed == s.autoNamed
    ensures e.UserSays? && s.autoNamed && s.conversation == [] ==> ApplyEdit(s, e).name == AutoName(e.text)
  {
  }

  /** A session is renamed by a message only while it is automatically named
      and still empty; once it holds a message, no message renames it. */
  lemma AutoNamedAtMostOnce(s: Session, e: Edit)
    requires !e.Renamed?
    ensures ApplyEdit(s, e).name != s.name ==> e.UserSays? && s.autoNamed && s.conversation == []
    ensures ApplyEdit(s, e).conversation != []
    ensures forall e2: Edit :: !e2.Renamed? ==> ApplyEdit(ApplyEdit(s, e), e2).name == ApplyEdit(s, e).name
  {
  }

  /** `prev.map(s => s.id === id ? edit(s) : s)`. */
  function UpdateWhere(sessions: seq<Session>, id: string, e: Edit): (r: seq<Session>)
    ensures |r| == |sessions|
    ensures forall k :: 0 <= k < |r| ==>
      r[k] == (if sessions[k].id == id then ApplyEdit(sessions[k], e) else sessions[k])
  {
    if sessions == [] then []
    else [if sessions[0].id == id then ApplyEdit(sessions[0], e) else sessions[0]]
         + UpdateWhere(sessions[1..], id, e)
  }

  /** The ids present in a session list. */
  function Ids(sessions: seq<Session>): set<string> {
    set s | s in sessions :: s.id
  }

  /** An edit keeps the list's ids, its order by id, and every session with
      another id. */
  lemma UpdateWhereFrame(sessions: seq<Session>, id: string, e: Edit)
    ensures Ids(UpdateWhere(sessions, id, e)) == Ids(sessions)
    ensures forall k :: 0 <= k < |sessions| ==> UpdateWhere(sessions, id, e)[k].id == sessions[k].id
    ensures id !in Ids(sessions) ==> UpdateWhere(sessions, id, e) == sessions
  {
    var r := UpdateWhere(sessions, id, e);
    forall x | x in Ids(r) ensures x in Ids(sessions) {
      var k :| 0 <= k < |r| && r[k].id == x;
      assert sessions[k] in sessions;
    }
    forall x | x in Ids(sessions) ensures x in Ids(r) {
      var k :| 0 <= k < |sessions| && sessions[k].id == x;
      assert r[k] in r;
    }
    if id !in Ids(sessions) {
      forall k | 0 <= k < |sessions| ensures r[k] == sessions[k] {
        assert sessions[k] in sessions;
      }
    }
  }

  /** `prev.filter(s => s.id !== id)`. */
  function Remove(sessions: seq<Session>, id: string): (r: seq<Session>)
    ensures |r| <= |sessions|
    ensures forall s :: s in r <==> s in sessions && s.id != id
  {
    if sessions == [] then []
    else if sessions[0].id == id then Remove(sessions[1..], id)
    else [sessions[0]] + Remove(sessions[1..], id)
  }

  /** Removal works element by element and keeps order: it distributes over
      concatenation. */
  lemma {:induction false} RemoveDistributes(a: seq<Session>, b: seq<Session>, id: string)
    ensures Remove(a + b, id) == Remove(a, id) + Remove(b, id)
  {
    if a == [] {
      assert a + b == b;
    } else {
      assert (a + b)[1..] == a[1..] + b;
      RemoveDistributes(a[1..], b, id);
    }
  }

  /** Removing drops exactly the id: every other id stays. */
  lemma RemoveIds(sessions: seq<Session>, id: string)
    ensures Ids(Remove(sessions, id)) == Ids(sessions) - {id}
  {
    var r := Remove(sessions, id);
    forall x | x in Ids(sessions) - {id} ensures x in Ids(r) {
      var s :| s in sessions && s.id == x;
      assert s in r;
    }
  }

  // ---------------------------------------------------------------- startup

  /** `chatHistory[0].id` on the initial history: `None` stands for the
      TypeError thrown on an empty list. */
  function FirstId(history: seq<Session>): (r: Option<string>)
    ensures r.Some? <==> history != []
    ensures r.Some? ==> r.value in Ids(history)
  {
    if history == [] then None else Some(history[0].id)
  }

  /** As written, a stored empty list reaches `chatHistory[0].id` before the
      mount effect that would add a session can run: the first render
      throws. */
  lemma StoredEmptyListCrashes(now: string)
    ensures FirstId(LoadHistory(Some([]), now)).None?
  {
  }

  /** The evidently intended start-up history: the loaded one, or one fresh
      session when that is empty, as the mount effect tries to arrange. */
  function StartupHistory(stored: Option<seq<Session>>, now: string): (h: seq<Session>)
    ensures h != [] && FirstId(h).Some?
    ensures LoadHistory(stored, now) != [] ==> h == LoadHistory(stored, now)
    ensures LoadHistory(stored, now) == [] ==> h == [NewSession(now)]
  {
    var loaded := LoadHistory(stored, now);
    if loaded == [] then [NewSession(now)] else loaded
  }
}

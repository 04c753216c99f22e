/**
 The session state of app.py: the provider transcript `chat_history`, which
 starts with the one system message, and the `display_log` shown to the user,
 which holds the same user and assistant messages without it. Each rerun of
 the page first (re)initialises the state (lines 73-75) and then, when the
 user submitted text, plays one turn (lines 83-108).
 */
module Conversation {
  import opened Wrappers
  import opened Accumulator

  datatype Role = System | User | Assistant

  datatype Message = Message(role: Role, content: string)

  /** The two logs held in the session state. */
  datatype Session = Session(chatHistory: seq<Message>, displayLog: seq<Message>)

  /** The completion client for one turn: either no API key was found (the
      page stops), or a client whose streaming call answers a transcript with
      a source of chunks. */
  datatype Backend = MissingKey | Connected(respond: seq<Message> -> Source)

  /** One rerun of the page: whether "Clear Conversation" was pressed, what
      the chat input returned, and the client the turn would use. */
  datatype Event = Event(clear: bool, input: Option<string>, backend: Backend)

  const SystemPrompt: string := "You are a helpful assistant."

  const ErrorPrefix: string := "An error occurred: "

  function SystemMessage(): Message {
    Message(System, SystemPrompt)
  }

  /** The lock-step invariant: the transcript is the system message followed
      by exactly the displayed messages, none of which is a system message. */
  predicate Valid(s: Session) {
    && s.chatHistory == [SystemMessage()] + s.displayLog
    && forall i :: 0 <= i < |s.displayLog| ==> s.displayLog[i].role != System
  }

  /** The lock-step invariant as the source's lengths and first message. */
  lemma ValidLengths(s: Session)
    requires Valid(s)
    ensures |s.chatHistory| == |s.displayLog| + 1
    ensures s.chatHistory[0] == SystemMessage()
    ensures s.chatHistory[1..] == s.displayLog
  {
  }

  /** The state a new or cleared session starts from. */
  function Fresh(): Session {
    Session([SystemMessage()], [])
  }

  /** Lines 73-75: the state is (re)built when the session holds none yet or
      the clear button was pressed; otherwise it is kept as it is. */
  function Initialise(st: Option<Session>, clear: bool): (s: Session)
    ensures st.None? || clear ==> s.chatHistory == [Message(System, SystemPrompt)] && s.displayLog == []
    ensures st.Some? && !clear ==> s == st.value
    ensures st.None? || Valid(st.value) ==> Valid(s)
  {
    if st.None? || clear then Fresh() else st.value
  }

  /** Clearing twice is clearing once. */
  lemma ClearIdempotent(st: Option<Session>)
    ensures Initialise(Some(Initialise(st, true)), true) == Initialise(st, true)
  {
  }

  /** Appends one message to both logs, as each pair of `append` calls does. */
  function Record(s: Session, m: Message): (t: Session)
    ensures |t.chatHistory| == |s.chatHistory| + 1 && |t.displayLog| == |s.displayLog| + 1
    ensures s.chatHistory <= t.chatHistory && s.displayLog <= t.displayLog
    ensures t.chatHistory[|s.chatHistory|] == m && t.displayLog[|s.displayLog|] == m
    // A non-system message keeps the two logs in lock step.
    ensures Valid(s) && m.role != System ==> Valid(t)
  {
    Session(s.chatHistory + [m], s.displayLog + [m])
  }

  /** Lines 85 and 96: the transcript handed to the provider already ends with
      the user's new message. */
  function Payload(s: Session, user: string): (p: seq<Message>)
    ensures p == s.chatHistory + [Message(User, user)]
    ensures Valid(s) ==> p == [SystemMessage()] + s.displayLog + [Message(User, user)]
  {
    Record(s, Message(User, user)).chatHistory
  }

  /** Lines 94-108: the assistant's content for the turn. After a normal end
      it is the last snapshot the loop received, or `""` when there was none;
      after a fault it is the error text, never the partial response. */
  function Reply(out: Output): (text: string)
    ensures out.outcome.Raised? ==> text == ErrorPrefix + out.outcome.error
    ensures out.outcome.Completed? && out.snapshots != [] ==> text == out.snapshots[|out.snapshots| - 1]
    ensures out.outcome.Completed? && out.snapshots == [] ==> text == ""
  {
    match out.outcome
    case Raised(e) => ErrorPrefix + e
    case Completed => if out.snapshots == [] then "" else out.snapshots[|out.snapshots| - 1]
  }

  /** Lines 83-108: one turn. Empty input is no turn. Otherwise the user message
      goes to both logs; a missing API key stops the page right there; else
      exactly one assistant message follows in both logs. */
  function Turn(s: Session, user: string, backend: Backend): (t: Session)
    ensures user == "" ==> t == s
    ensures Valid(s) ==> Valid(t)
    // Messages are only ever appended.
    ensures s.chatHistory <= t.chatHistory && s.displayLog <= t.displayLog
    ensures user != "" ==>
      && |t.chatHistory| == |s.chatHistory| + (if backend.MissingKey? then 1 else 2)
      && |t.displayLog| == |s.displayLog| + (if backend.MissingKey? then 1 else 2)
      && t.chatHistory[|s.chatHistory|] == Message(User, user)
      && t.displayLog[|s.displayLog|] == Message(User, user)
    ensures user != "" && backend.Connected? ==>
      && t.displayLog[|s.displayLog| + 1].role == Assistant
      && t.displayLog[|s.displayLog| + 1] == t.chatHistory[|s.chatHistory| + 1]
  {
    if user == "" then s
    else
      var asked := Record(s, Message(User, user));
      match backend
      case MissingKey => asked
      case Connected(respond) =>
        var out := Accumulate(respond(Payload(s, user)));
        Record(asked, Message(Assistant, Reply(out)))
  }

  /** A turn whose stream ends normally records, in both logs, the user message
      and then the concatenation of every non-empty part of the stream. */
  lemma TurnCompleted(s: Session, user: string, respond: seq<Message> -> Source, cs: seq<Chunks.Chunk>)
    requires user != ""
    requires respond(Payload(s, user)) == Opened(Stream(cs, Done))
    ensures var t := Turn(s, user, Connected(respond));
      && t.chatHistory == s.chatHistory + [Message(User, user), Message(Assistant, Concat(Parts(cs)))]
      && t.displayLog == s.displayLog + [Message(User, user), Message(Assistant, Concat(Parts(cs)))]
  {
  }

  /** A turn whose request or stream faults records the error text as the
      assistant's message, whatever partial text was shown before. */
  lemma TurnFaulted(s: Session, user: string, respond: seq<Message> -> Source, e: string)
    requires user != ""
    requires respond(Payload(s, user)) == RequestFailed(e)
          || (respond(Payload(s, user)).Opened? && respond(Payload(s, user)).stream.end == Fault(e))
    ensures var t := Turn(s, user, Connected(respond));
      && t.chatHistory == s.chatHistory + [Message(User, user), Message(Assistant, ErrorPrefix + e)]
      && t.displayLog == s.displayLog + [Message(User, user), Message(Assistant, ErrorPrefix + e)]
  {
  }

  /** One rerun of the page: initialise or clear, then play the submitted
      input, if any. */
  function Rerun(st: Option<Session>, ev: Event): (s: Session)
    ensures st.None? || Valid(st.value) ==> Valid(s)
    ensures ev.clear || st.None? ==> [SystemMessage()] <= s.chatHistory && |s.displayLog| <= 2
    ensures !ev.clear && st.Some? ==> st.value.displayLog <= s.displayLog
  {
    var s0 := Initialise(st, ev.clear);
    match ev.input
    case None => s0
    case Some(user) => Turn(s0, user, ev.backend)
  }

  /** The session state after a sequence of reruns. */
  function Replay(st: Option<Session>, evs: seq<Event>): Option<Session>
    decreases |evs|
  {
    if evs == [] then st else Replay(Some(Rerun(st, evs[0])), evs[1..])
  }

  /** After any sequence of reruns, whatever turns succeeded, faulted or
      stopped, the two logs stay in lock step. */
  lemma {:induction false} ReplayKeepsLockStep(st: Option<Session>, evs: seq<Event>)
    requires st.None? || Valid(st.value)
    ensures var r := Replay(st, evs);
      && (evs != [] ==> r.Some?)
      && (r.Some? ==> Valid(r.value) && |r.value.chatHistory| == |r.value.displayLog| + 1)
    decreases |evs|
  {
    if evs != [] {
      ReplayKeepsLockStep(Some(Rerun(st, evs[0])), evs[1..]);
    }
    var r := Replay(st, evs);
    if r.Some? {
      ValidLengths(r.value);
    }
  }

  /** Without a clear, the displayed conversation only grows: every earlier
      message stays where it was. */
  lemma {:induction false} ReplayAppendOnly(s: Session, evs: seq<Event>)
    requires forall i :: 0 <= i < |evs| ==> !evs[i].clear
    ensures Replay(Some(s), evs).Some?
    ensures s.displayLog <= Replay(Some(s), evs).value.displayLog
    decreases |evs|
  {
    if evs != [] {
      var s1 := Rerun(Some(s), evs[0]);
      ReplayAppendOnly(s1, evs[1..]);
    }
  }
}

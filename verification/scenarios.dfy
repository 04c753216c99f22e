/**
 Concrete runs of the model: small example streams and a clear of a
 non-empty conversation, worked out against the definitions.
 */
module Scenarios {
  import opened Wrappers
  import opened Chunks
  import opened Accumulator
  import opened Conversation

  /** A chunk carrying only a plain `text` on its choice. */
  function TextChunk(t: string): Chunk {
    Choice(None, Some(t))
  }

  /** A chunk carrying its text as `delta.content`. */
  function DeltaChunk(t: string): Chunk {
    Choice(Some(Delta(Some(t), None)), None)
  }

  /** Two plain-text chunks emit "Hel" then "Hello", and the turn records "Hello". */
  lemma PlainTextStream(s: Session)
    ensures Accumulate(Opened(Stream([TextChunk("Hel"), TextChunk("lo")], Done)))
         == Output(["Hel", "Hello"], Completed)
    ensures var t := Turn(s, "hi", Connected(_ => Opened(Stream([TextChunk("Hel"), TextChunk("lo")], Done))));
      t.displayLog == s.displayLog + [Message(User, "hi"), Message(Assistant, "Hello")]
  {
    var cs := [TextChunk("Hel"), TextChunk("lo")];
    assert cs[1..] == [TextChunk("lo")];
    assert Part(TextChunk("Hel")) == Some("Hel") && Part(TextChunk("lo")) == Some("lo");
    assert [TextChunk("lo")][1..] == [];
    assert "" + "Hel" == "Hel" && "Hel" + "lo" == "Hello";
    assert Run("Hello", []) == Progress([], "Hello");
    assert Run("Hel", [TextChunk("lo")]) == Progress(["Hello"], "Hello");
    assert Run("", cs) == Progress(["Hel", "Hello"], "Hello");
  }

  /** A chunk of no known shape between two delta chunks emits nothing:
      the snapshots are "Hi" then "Hi!". */
  lemma StrayChunkStream()
    ensures Accumulate(Opened(Stream([DeltaChunk("Hi"), Choice(None, None), DeltaChunk("!")], Done)))
         == Output(["Hi", "Hi!"], Completed)
  {
    var cs := [DeltaChunk("Hi"), Choice(None, None), DeltaChunk("!")];
    assert cs[1..] == [Choice(None, None), DeltaChunk("!")];
    assert cs[1..][1..] == [DeltaChunk("!")];
    assert [DeltaChunk("!")][1..] == [];
    assert Part(DeltaChunk("Hi")) == Some("Hi") && Part(DeltaChunk("!")) == Some("!");
    assert Part(Choice(None, None)) == None;
    assert "" + "Hi" == "Hi" && "Hi" + "!" == "Hi!";
    assert Run("Hi!", []) == Progress([], "Hi!");
    assert Run("Hi", [DeltaChunk("!")]) == Progress(["Hi!"], "Hi!");
    assert Run("Hi", cs[1..]) == Progress(["Hi!"], "Hi!");
    assert Run("", cs) == Progress(["Hi", "Hi!"], "Hi!");
  }

  /** A fault after "Par" re-emits "Par", and the turn records the error text
      rather than the partial response. */
  lemma FaultAfterPartialText(s: Session, e: string)
    ensures Accumulate(Opened(Stream([DeltaChunk("Par")], Fault(e))))
         == Output(["Par", "Par"], Raised(e))
    ensures var t := Turn(s, "hi", Connected(_ => Opened(Stream([DeltaChunk("Par")], Fault(e)))));
      t.chatHistory == s.chatHistory + [Message(User, "hi"), Message(Assistant, "An error occurred: " + e)]
  {
    assert [DeltaChunk("Par")][1..] == [];
    assert Part(DeltaChunk("Par")) == Some("Par");
    assert "" + "Par" == "Par";
    assert Run("Par", []) == Progress([], "Par");
    assert Run("", [DeltaChunk("Par")]) == Progress(["Par"], "Par");
  }

  /** An empty `delta.content` with an empty `message.content` blocks the
      fallback to `text`, so the chunk contributes nothing; with no message
      at all, the `text` is used. */
  lemma EmptyDeltaContent()
    ensures Part(Choice(Some(Delta(Some(""), Some(DeltaMessage(Some(""))))), Some("x"))) == None
    ensures Part(Choice(Some(Delta(Some(""), None)), Some("x"))) == Some("x")
    ensures Part(Choice(Some(Delta(Some(""), Some(DeltaMessage(Some("m"))))), Some("x"))) == Some("m")
  {
  }

  /** Clearing a non-empty conversation leaves exactly the system message and
      an empty display log. */
  lemma ClearNonEmpty()
    ensures var s := Session([SystemMessage(), Message(User, "q"), Message(Assistant, "a")],
                             [Message(User, "q"), Message(Assistant, "a")]);
      Rerun(Some(s), Event(false, None, MissingKey)) == s
      && Rerun(Some(s), Event(true, None, MissingKey)) == Session([Message(System, "You are a helpful assistant.")], [])
  {
  }
}

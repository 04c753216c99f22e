# Streaming chat client: accumulator and session model

A Dafny model of the logic in `app.py`, a single-page chat client that sends the
conversation to a hosted completion endpoint and paints the reply while it streams in.
Two pieces of that file carry logic, and the model covers both.

- **Stream accumulator** (`generate_streamed_response`). It folds the response chunks
  into one growing string and emits the whole string after every non-empty part. A
  chunk of unknown or broken shape is skipped. On a stream fault it emits the current
  string once more and then re-raises. `chunks.dfy` models how one chunk is read:
  the chunk shapes and the ordered shape detection. `accumulator.dfy` models the fold,
  the snapshots it emits and how it ends.
- **Conversation state**. `chat_history` is the transcript sent to the provider and
  starts with one system message. `display_log` holds the same user and assistant
  messages without the system message. `conversation.dfy` models initialisation and
  clearing, one turn, and sequences of page reruns. The main invariant: the transcript
  is the system message followed by exactly the display log.

`scenarios.dfy` works small example streams through the model. `wrappers.dfy`
defines `Option`.

The completion call is a parameter. `Backend.Connected` carries a function from the
transcript to a `Source`. A `Source` is either a failed request or an opened stream,
meaning a finite list of chunks that ends in `Done` or `Fault(e)`. A missing API key is
the `Backend.MissingKey` case.

Three behaviours of the code are easy to miss:

- **Empty parts.** An empty string counts as no part: `if content_part:` (app.py:45)
  drops it exactly like a missing one, so it is never appended and never emitted.
- **Empty `delta.message.content` blocks `text`.** The fallback to `choice.text` tests
  `is None` (app.py:39). So an empty string found under `delta.message.content` stops
  the fallback, and the chunk contributes nothing.
- **Missing API key.** When no key is found, the page stops after the user message has
  been added to both logs (app.py:84-87). That turn records no assistant message.

## Model

| member | source | states |
|---|---|---|
| Chunks.Extract | app.py:28-43 | A chunk without a usable first choice yields nothing. A non-empty `delta.content` wins. An empty or missing one falls through to `delta.message.content`. `choice.text` is used only when the delta shapes produced `None`. Any result comes from one of those three fields. |
| Chunks.Part | app.py:42-45 | A chunk contributes a part exactly when its extracted text is present and non-empty. An empty string counts like a missing one. |
| Accumulator.Run | app.py:27-47 | The loop emits at most one snapshot per chunk, and the accumulated string only grows: the starting string is a prefix of the final one. |
| Accumulator.RunFollowsParts | app.py:25-47 | The fold emits one snapshot per non-empty part. It ends holding the starting string followed by the concatenation of all non-empty parts, and the last snapshot equals that string. With no part it emits nothing and keeps the starting string. |
| Accumulator.SnapshotsStrictlyGrow | app.py:45-47 | Each snapshot strictly extends the starting string and every snapshot emitted before it. The old string is always a proper prefix of the new one. |
| Accumulator.Accumulate | app.py:18-51 | The run completes exactly when the stream ends normally. A failed request emits nothing and raises its error. A stream fault raises the same error after one extra snapshot. The last snapshot is the concatenation of the parts, and snapshots never shrink. |
| Accumulator.SnapshotsArePartialConcats | app.py:45-47 | The i-th snapshot is the start string followed by the first i+1 non-empty parts, in stream order. |
| Accumulator.RunSplit | app.py:27-47 | Feeding the chunks in two pieces gives the same result as feeding them whole. Snapshots emitted for a prefix of the stream are kept as a prefix of the full output. |
| Accumulator.SilentChunkIsSkipped | app.py:28-47 | A chunk that contributes nothing, even one whose lookup raises, leaves the run over the remaining chunks exactly as if it were absent. It does not abort the stream. |
| Accumulator.FaultReemitsCurrent | app.py:49-51 | On a stream fault the output is what a normal end would emit, then the accumulated string once more, then the fault. Nothing follows it. |
| Accumulator.CompletedEndsWithWholeText | app.py:25-47 | A normally ending stream emits nothing exactly when no chunk had a non-empty part. Otherwise its last snapshot is the whole concatenated text. |
| Conversation.ValidLengths | app.py:73-75 | Under the lock-step invariant the transcript is one longer than the display log, starts with the system message, and continues with exactly the display log. |
| Conversation.Initialise | app.py:73-75 | With no state yet or on clear, the transcript is exactly the system message "You are a helpful assistant." and the display log is empty. Otherwise the state is kept. The invariant is established or preserved. |
| Conversation.ClearIdempotent | app.py:73-75 | Clearing twice gives the same state as clearing once. |
| Conversation.Record | app.py:84-85 | Appending one message to both logs adds exactly that message at the end of each and keeps everything before it. A non-system message preserves the lock-step invariant. The same pair of appends recurs at app.py:101-102 and 107-108. |
| Conversation.Reply | app.py:95-105 | After a normal end the assistant content is the last snapshot received, or `""` when nothing was emitted. After a fault it is "An error occurred: " followed by the error. |
| Conversation.Payload | app.py:85-96 | The transcript handed to the provider is the previous transcript with the new user message appended. Under the invariant this is the system message, the display log, then the user message. |
| Conversation.Turn | app.py:83-108 | Empty input changes nothing. Otherwise both logs gain the user message. A missing key stops there. Otherwise both logs gain exactly one more message, the same assistant message in each. Nothing earlier changes, and the lock-step invariant is preserved. |
| Conversation.TurnCompleted | app.py:94-102 | When the stream ends normally, both logs gain the user message and then the concatenation of all non-empty parts. That text is `""` when nothing was emitted. |
| Conversation.TurnFaulted | app.py:104-108 | When the request or the stream faults, both logs gain the user message and then "An error occurred: " followed by the error, not the partial text. |
| Conversation.Rerun | app.py:73-108 | One page rerun preserves the invariant. After a clear or on a new session the transcript starts with the system message and at most one turn is shown. Without a clear the display log only grows. |
| Conversation.ReplayKeepsLockStep | app.py:73-108 | After any sequence of reruns the transcript is the system message followed by the display log, so it is one longer. This holds whether the turns completed, faulted or stopped. |
| Conversation.ReplayAppendOnly | app.py:84-108 | Over reruns without a clear, every displayed message stays where it was. |
| Scenarios.PlainTextStream | app.py:39-47 | Text chunks "Hel" and "lo" emit "Hel" then "Hello", and the turn records "Hello". |
| Scenarios.StrayChunkStream | app.py:28-47 | A chunk of no known shape between delta chunks "Hi" and "!" emits nothing. The snapshots are "Hi" and "Hi!". |
| Scenarios.FaultAfterPartialText | app.py:45-51 | A fault after "Par" emits "Par" twice and raises. The turn records the error text. |
| Scenarios.EmptyDeltaContent | app.py:35-45 | An empty `delta.content` falls through to `message.content`. An empty `message.content` blocks `text`. A missing message lets `text` through. |
| Scenarios.ClearNonEmpty | app.py:73-75 | Clearing a non-empty conversation leaves exactly the system message and an empty display log. A rerun without a clear keeps the state. |

## Left out

- Streamlit rendering is not modelled because it is presentation only. This covers page config, title, sidebar widgets, chat bubbles, the placeholder repaint after each snapshot, and `st.error` (app.py:6, 54-70, 77-79, 89-92, 97-98, 106).
- Client construction and the API-key lookup from secrets or the environment (app.py:9-15) are configuration I/O. Only their effect on a turn is modelled: the page stops after the user message (`Backend.MissingKey`).
- The completion call (app.py:20-24) is a foreign library call. Its answer is modelled only as a parameter of the turn, and `str(e)` of a fault is modelled as a given string.
- The model selector and the temperature slider (app.py:60-69) are not modelled. They are configuration inputs, and the temperature is never used.
- The generator's laziness and suspension are not modelled. A run is its finite list of snapshots plus how it ends.
- The mapping-versus-object branch at app.py:34-37 is one datatype. Both branches read the same fields in the same order.
- Non-string content values are not modelled. A truthy non-string part would make `+=` at app.py:46 raise inside the outer `try`, so it would count as a stream fault. Contents are typed as strings here.
- Exceptions that are not `Exception` subclasses are not modelled, for example a keyboard interrupt. Neither `except` clause catches them.

/**
 The shapes a streamed completion chunk can take, and the ordered shape
 detection that finds the text part of a single chunk (app.py, lines 28-47).

 The provider's chunks are loosely typed: the first choice may carry a
 `delta` (given either as a mapping or as an object), the delta may carry
 `content` directly or one level deeper under `message`, and the choice may
 carry a plain `text`. The mapping and object branches of the source try the
 same fields in the same order, so one datatype stands for both.
 */
module Chunks {
  import opened Wrappers

  /** The `message` nested inside a delta; its `content` may be missing. */
  datatype DeltaMessage = DeltaMessage(content: Option<string>)

  /** The `delta` of a choice. A delta that is itself `None` reads exactly
      like `Delta(None, None)`: both attribute lookups fall back to `None`. */
  datatype Delta = Delta(content: Option<string>, message: Option<DeltaMessage>)

  /** One chunk of the response stream, as seen from its first choice. */
  datatype Chunk =
    | NoChoices
      // `choices[0]` raises: the chunk has no choice at all
    | Malformed
      // some other lookup raises, e.g. a mapping delta whose `message` is not a mapping
    | Choice(delta: Option<Delta>, text: Option<string>)

  /** Python truthiness of an optional string: present and non-empty. */
  predicate Filled(t: Option<string>) {
    t.Some? && t.value != ""
  }

  /** The text a delta offers: its own `content` when that is truthy, otherwise
      whatever its `message` holds under `content` (possibly `""`, possibly
      nothing), as the `or` of the source computes it. */
  function DeltaText(d: Delta): Option<string> {
    if Filled(d.content) then d.content
    else if d.message.Some? then d.message.value.content
    else None
  }

  /** The candidate text part of a chunk, before the emptiness test. The
      choice's `text` is consulted only when the delta produced `None`; an
      empty string from the delta does block it. A chunk whose lookup raises
      yields `None`, and the stream goes on. */
  function Extract(c: Chunk): (r: Option<string>)
    // A raising chunk yields nothing.
    ensures !c.Choice? ==> r == None
    // First shape: a non-empty `delta.content` wins over everything else.
    ensures c.Choice? && c.delta.Some? && Filled(c.delta.value.content) ==> r == c.delta.value.content
    // Second shape: an empty or missing `delta.content` falls through to `delta.message.content`.
    ensures c.Choice? && c.delta.Some? && !Filled(c.delta.value.content)
            && c.delta.value.message.Some? && c.delta.value.message.value.content.Some?
            ==> r == c.delta.value.message.value.content
    // Third shape: `choice.text` is used when the delta shapes found nothing at all.
    ensures c.Choice? && (c.delta.None? || c.delta.value.message.None? || c.delta.value.message.value.content.None?)
            && (c.delta.Some? ==> !Filled(c.delta.value.content))
            ==> r == c.text
    // Whatever is found comes from one of the three known fields.
    ensures r.Some? ==>
      && c.Choice?
      && (|| r == c.text
          || (c.delta.Some? && r == c.delta.value.content)
          || (c.delta.Some? && c.delta.value.message.Some? && r == c.delta.value.message.value.content))
  {
    match c
    case NoChoices => None
    case Malformed => None
    case Choice(delta, text) =>
      var fromDelta := if delta.Some? then DeltaText(delta.value) else None;
      if fromDelta.None? then text else fromDelta
  }

  /** The part a chunk contributes to the response: the extracted text when it
      is truthy. An empty string counts exactly like a missing one. */
  function Part(c: Chunk): (p: Option<string>)
    ensures p.Some? ==> p.value != "" && Extract(c) == p
    ensures p.None? <==> Extract(c) == None || Extract(c) == Some("")
  {
    if Filled(Extract(c)) then Extract(c) else None
  }
}

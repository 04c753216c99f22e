/**
 The stream accumulator of app.py, lines 18-51: a fold over the response
 chunks that keeps one growing string and emits the whole string so far each
 time a chunk contributes a non-empty part. A fault of the stream itself makes
 the accumulator emit the current string once more and then re-raise.

 The generator's laziness is not modelled: its run is the finite list of
 snapshots it emits plus the way it ends.
 */
module Accumulator {
  import opened Wrappers
  import opened Chunks

  /** How the chunk sequence ends: normally, or with a fault raised while
      fetching the next chunk (its message is `str(e)`). */
  datatype End = Done | Fault(error: string)

  /** The chunks the provider delivers, in order, and how the sequence ends. */
  datatype Stream = Stream(chunks: seq<Chunk>, end: End)

  /** What the completion call produces for one request: either the request
      itself fails (app.py:20-24, outside the accumulator's `try`), or it opens
      a stream. */
  datatype Source = RequestFailed(error: string) | Opened(stream: Stream)

  /** How the accumulator's run ends, as its consumer sees it. */
  datatype Outcome = Completed | Raised(error: string)

  /** Everything the accumulator emits, in order, and how it ends. */
  datatype Output = Output(snapshots: seq<string>, outcome: Outcome)

  /** The fold's state after a sequence of chunks: the snapshots emitted so
      far and the accumulated string. */
  datatype Progress = Progress(snapshots: seq<string>, text: string)

  /** The non-empty parts of the chunks, in stream order: the reference
      against which the fold is specified. */
  function Parts(cs: seq<Chunk>): (ps: seq<string>)
    ensures |ps| <= |cs|
    ensures forall i :: 0 <= i < |ps| ==> ps[i] != ""
  {
    if cs == [] then []
    else
      match Part(cs[0])
      case Some(p) => [p] + Parts(cs[1..])
      case None => Parts(cs[1..])
  }

  /** The in-order concatenation of a list of strings. */
  function Concat(ps: seq<string>): string {
    if ps == [] then "" else ps[0] + Concat(ps[1..])
  }

  /** Proper-prefix order on strings is transitive. */
  lemma ExtendsTransitive(a: string, b: string, c: string)
    requires a < b && b < c
    ensures a < c
  {
  }

  /** The loop of app.py:27-47, started from the accumulated string `acc`:
      a chunk with a part appends it and emits the new string; any other
      chunk is passed over. It emits at most one snapshot per chunk, and the
      accumulated string only ever grows. Its relation to the non-empty parts
      is `RunFollowsParts`. */
  function Run(acc: string, cs: seq<Chunk>): (r: Progress)
    ensures |r.snapshots| <= |cs|
    ensures acc <= r.text
    decreases |cs|
  {
    if cs == [] then Progress([], acc)
    else
      match Part(cs[0])
      case Some(p) =>
        var rest := Run(acc + p, cs[1..]);
        Progress([acc + p] + rest.snapshots, rest.text)
      case None => Run(acc, cs[1..])
  }

  /** The fold emits one snapshot per non-empty part and ends holding `acc`
      followed by all the parts; the last snapshot is that string, and with
      no part it emits nothing and keeps `acc`. */
  lemma {:induction false} RunFollowsParts(acc: string, cs: seq<Chunk>)
    ensures |Run(acc, cs).snapshots| == |Parts(cs)|
    ensures Run(acc, cs).text == acc + Concat(Parts(cs))
    ensures |Run(acc, cs).snapshots| > 0 ==> Run(acc, cs).snapshots[|Run(acc, cs).snapshots| - 1] == Run(acc, cs).text
    ensures |Run(acc, cs).snapshots| == 0 ==> Run(acc, cs).text == acc
    decreases |cs|
  {
    if cs != [] {
      var tail := cs[1..];
      match Part(cs[0])
      case Some(p) =>
        RunFollowsParts(acc + p, tail);
        assert Parts(cs) == [p] + Parts(tail);
        assert Concat([p] + Parts(tail)) == p + Concat(Parts(tail));
      case None =>
        RunFollowsParts(acc, tail);
    }
  }

  /** Each snapshot strictly extends the starting string and every snapshot
      emitted before it. */
  lemma {:induction false} SnapshotsStrictlyGrow(acc: string, cs: seq<Chunk>)
    ensures forall i :: 0 <= i < |Run(acc, cs).snapshots| ==> acc < Run(acc, cs).snapshots[i]
    ensures forall i, j :: 0 <= i < j < |Run(acc, cs).snapshots| ==> Run(acc, cs).snapshots[i] < Run(acc, cs).snapshots[j]
    decreases |cs|
  {
    if cs != [] {
      match Part(cs[0])
      case Some(p) =>
        var rest := Run(acc + p, cs[1..]).snapshots;
        SnapshotsStrictlyGrow(acc + p, cs[1..]);
        assert Run(acc, cs).snapshots == [acc + p] + rest;
        assert acc < acc + p;
        forall i | 0 <= i < |rest|
          ensures acc < rest[i]
        {
          ExtendsTransitive(acc, acc + p, rest[i]);
        }
      case None =>
        SnapshotsStrictlyGrow(acc, cs[1..]);
    }
  }

  /** Snapshots never shrink: each is a prefix of every later one. */
  predicate NeverShrinks(snaps: seq<string>) {
    forall i, j :: 0 <= i < j < |snaps| ==> snaps[i] <= snaps[j]
  }

  /** The whole of `generate_streamed_response` once the request is made:
      the snapshots it yields, then how it ends. */
  function Accumulate(src: Source): (out: Output)
    // It completes exactly when the stream ends normally.
    ensures out.outcome.Completed? <==> src.Opened? && src.stream.end.Done?
    // A failed request emits nothing and propagates its fault.
    ensures src.RequestFailed? ==> out == Output([], Raised(src.error))
    // A stream fault is propagated unchanged.
    ensures src.Opened? && src.stream.end.Fault? ==> out.outcome == Raised(src.stream.end.error)
    // One snapshot per non-empty part, plus one re-emission on a fault;
    // the last snapshot is the concatenation of all non-empty parts.
    ensures src.Opened? ==>
      && |out.snapshots| == |Parts(src.stream.chunks)| + (if src.stream.end.Fault? then 1 else 0)
      && (|out.snapshots| > 0 ==> out.snapshots[|out.snapshots| - 1] == Concat(Parts(src.stream.chunks)))
    ensures NeverShrinks(out.snapshots)
  {
    match src
    case RequestFailed(e) => Output([], Raised(e))
    case Opened(Stream(cs, end)) =>
      match end
      case Done =>
        CompletedOutput(cs);
        Output(Run("", cs).snapshots, Completed)
      case Fault(e) =>
        FaultedOutput(cs);
        Output(Run("", cs).snapshots + [Run("", cs).text], Raised(e))
  }

  /** What a normally ending stream emits: one snapshot per non-empty part,
      the whole text last, in prefix order. */
  lemma CompletedOutput(cs: seq<Chunk>)
    ensures var snaps := Run("", cs).snapshots;
      && |snaps| == |Parts(cs)|
      && (|snaps| > 0 ==> snaps[|snaps| - 1] == Concat(Parts(cs)))
      && NeverShrinks(snaps)
  {
    RunFollowsParts("", cs);
    SnapshotsStrictlyGrow("", cs);
  }

  /** What a faulting stream emits: the same, then the whole text once more. */
  lemma FaultedOutput(cs: seq<Chunk>)
    ensures var snaps := Run("", cs).snapshots + [Run("", cs).text];
      && |snaps| == |Parts(cs)| + 1
      && snaps[|snaps| - 1] == Concat(Parts(cs))
      && NeverShrinks(snaps)
  {
    var run := Run("", cs);
    RunFollowsParts("", cs);
    SnapshotsStrictlyGrow("", cs);
    RepeatingTheLastKeepsOrder(run.snapshots, run.text);
  }

  /** Emitting the last string once more keeps the snapshots ordered by prefix. */
  lemma RepeatingTheLastKeepsOrder(snaps: seq<string>, t: string)
    requires forall i, j :: 0 <= i < j < |snaps| ==> snaps[i] < snaps[j]
    requires |snaps| > 0 ==> snaps[|snaps| - 1] == t
    ensures NeverShrinks(snaps + [t])
  {
  }

  /** The i-th snapshot is `acc` followed by the first i+1 non-empty parts. */
  lemma {:induction false} SnapshotsArePartialConcats(acc: string, cs: seq<Chunk>)
    ensures |Run(acc, cs).snapshots| == |Parts(cs)|
    ensures forall i :: 0 <= i < |Run(acc, cs).snapshots| ==>
      Run(acc, cs).snapshots[i] == acc + Concat(Parts(cs)[..i + 1])
    decreases |cs|
  {
    RunFollowsParts(acc, cs);
    if cs != [] {
      var tail := cs[1..];
      match Part(cs[0])
      case Some(p) =>
        var next := acc + p;
        SnapshotsArePartialConcats(next, tail);
        var rest := Run(next, tail).snapshots;
        var ps := Parts(tail);
        assert Run(acc, cs).snapshots == [next] + rest;
        assert Parts(cs) == [p] + ps;
        forall i | 0 <= i < |[next] + rest|
          ensures ([next] + rest)[i] == acc + Concat(([p] + ps)[..i + 1])
        {
          var prefix := ([p] + ps)[..i + 1];
          assert prefix == [p] + ps[..i];
          assert prefix[0] == p && prefix[1..] == ps[..i];
          assert Concat(prefix) == p + Concat(ps[..i]);
          if i == 0 {
            assert ps[..i] == [];
          } else {
            assert ([next] + rest)[i] == rest[i - 1];
            assert ps[..i] == ps[..(i - 1) + 1];
          }
          assert acc + (p + Concat(ps[..i])) == next + Concat(ps[..i]);
        }
      case None =>
        SnapshotsArePartialConcats(acc, tail);
    }
  }

  /** Feeding a stream in two pieces is feeding it whole: the snapshots of a
      prefix of the stream are never retracted by what follows. */
  lemma {:induction false} RunSplit(acc: string, xs: seq<Chunk>, ys: seq<Chunk>)
    ensures Run(acc, xs + ys).snapshots == Run(acc, xs).snapshots + Run(Run(acc, xs).text, ys).snapshots
    ensures Run(acc, xs + ys).text == Run(Run(acc, xs).text, ys).text
    decreases |xs|
  {
    if xs == [] {
      assert xs + ys == ys;
    } else {
      var zs := xs + ys;
      assert zs[0] == xs[0] && zs[1..] == xs[1..] + ys;
      var tail := xs[1..];
      match Part(xs[0])
      case Some(p) =>
        var next := acc + p;
        RunSplit(next, tail, ys);
        var left := Run(next, tail);
        var right := Run(left.text, ys);
        assert Run(acc, zs).snapshots == [next] + (left.snapshots + right.snapshots);
        assert Run(acc, xs).snapshots == [next] + left.snapshots;
        assert [next] + (left.snapshots + right.snapshots) == ([next] + left.snapshots) + right.snapshots;
      case None =>
        RunSplit(acc, tail, ys);
        assert Run(acc, zs) == Run(acc, tail + ys);
        assert Run(acc, xs) == Run(acc, tail);
    }
  }

  /** A chunk that contributes nothing (no choice, a raising lookup, a missing
      or empty part) neither emits nor aborts: the chunks after it are
      processed exactly as if it were not there. */
  lemma SilentChunkIsSkipped(acc: string, xs: seq<Chunk>, c: Chunk, ys: seq<Chunk>)
    requires Part(c) == None
    ensures Run(acc, xs + [c] + ys) == Run(acc, xs + ys)
  {
    RunSplit(acc, xs, [c] + ys);
    RunSplit(acc, xs, ys);
    assert xs + [c] + ys == xs + ([c] + ys);
    assert ([c] + ys)[1..] == ys;
  }

  /** On a stream fault the accumulator emits exactly what a normal end would
      have emitted, then the current string once more (possibly `""`,
      possibly a repeat of the last snapshot), and nothing after it. */
  lemma FaultReemitsCurrent(cs: seq<Chunk>, e: string)
    ensures Accumulate(Opened(Stream(cs, Fault(e)))) ==
      Output(Accumulate(Opened(Stream(cs, Done))).snapshots + [Concat(Parts(cs))], Raised(e))
  {
  }

  /** A stream that ends normally emits the concatenation of its parts last,
      and nothing at all when no chunk had a non-empty part. */
  lemma CompletedEndsWithWholeText(cs: seq<Chunk>)
    ensures var out := Accumulate(Opened(Stream(cs, Done)));
      && (out.snapshots == [] <==> Parts(cs) == [])
      && (out.snapshots != [] ==> out.snapshots[|out.snapshots| - 1] == Concat(Parts(cs)))
  {
  }
}

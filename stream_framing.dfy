/**
 * The line framing shared by the streaming adapters: every chunk received is cut
 * at '\n', lines that are blank after trimming are dropped, and each remaining
 * line is classified in order. A line may yield one item and may end the stream;
 * when it does both the item is yielded first. Lines are framed per chunk, so a
 * line split across two chunks is seen as two lines.
 */
module StreamFraming {

  import opened Wrappers
  import opened Strings
  import opened Json
  import opened Payloads

  /** What one line contributes: an item to yield, and whether the stream ends there. */
  datatype Step<T> = Step(emit: Option<T>, stop: bool)

  /** The parts of a split chunk that are not blank, in order. */
  function NonBlank(parts: seq<string>): (lines: seq<string>)
    ensures forall k :: 0 <= k < |lines| ==> Trim(lines[k]) != "" && lines[k] in parts
    ensures |lines| <= |parts|
  {
    if |parts| == 0 then []
    else if Trim(parts[0]) != "" then [parts[0]] + NonBlank(parts[1..])
    else NonBlank(parts[1..])
  }

  /** `chunk.toString().split('\n').filter(line => line.trim() !== '')`. */
  function ChunkLines(chunk: string): (lines: seq<string>)
    ensures forall k :: 0 <= k < |lines| ==> Trim(lines[k]) != "" && '\n' !in lines[k]
  {
    var parts := Split(chunk, '\n');
    var lines := NonBlank(parts);
    assert forall k :: 0 <= k < |lines| ==> lines[k] in parts;
    lines
  }

  /** The items yielded so far and whether a line ended the stream. */
  datatype Framed<T> = Framed(items: seq<T>, stopped: bool)

  /** The items yielded by `lines` and whether one of them ended the stream. */
  function Frames<L, T>(lines: seq<L>, classify: L -> Step<T>): Framed<T> {
    if |lines| == 0 then Framed([], false)
    else
      var step := classify(lines[0]);
      var here := if step.emit.Some? then [step.emit.value] else [];
      if step.stop then Framed(here, true)
      else
        var rest := Frames(lines[1..], classify);
        Framed(here + rest.items, rest.stopped)
  }

  /** The concatenation of the framed lines of every chunk, in order. */
  function AllLines(chunks: seq<string>): seq<string> {
    if |chunks| == 0 then [] else ChunkLines(chunks[0]) + AllLines(chunks[1..])
  }

  /** The items of every line, ignoring stops. */
  function Emitted<L, T>(lines: seq<L>, classify: L -> Step<T>): seq<T> {
    if |lines| == 0 then []
    else
      var step := classify(lines[0]);
      (if step.emit.Some? then [step.emit.value] else []) + Emitted(lines[1..], classify)
  }

  /** True when no line of `lines` ends the stream. */
  predicate NoStop<L, T>(lines: seq<L>, classify: L -> Step<T>) {
    forall k :: 0 <= k < |lines| ==> !classify(lines[k]).stop
  }

  /**
   * The inner loop of the streaming adapters: yield what each line yields, and stop
   * at the first line that ends the stream.
   */
  method ParseLines<L, T>(lines: seq<L>, classify: L -> Step<T>) returns (items: seq<T>, stopped: bool)
    ensures Framed(items, stopped) == Frames(lines, classify)
  {
    items := [];
    var l := 0;
    assert lines[0..] == lines;
    while l < |lines|
      invariant ParsedUpTo(lines, classify, l, items)
    {
      var step := classify(lines[l]);
      var here := if step.emit.Some? then [step.emit.value] else [];
      ParseNext(lines, classify, l, items);
      items := items + here;
      if step.stop {
        stopped := true;
        return;
      }
      l := l + 1;
    }
    stopped := false;
    assert lines[l..] == [];
    assert items == items + [];
  }

  /** The loop state of `ParseLines`: `items` were yielded by lines before `l`, and no line there stopped. */
  ghost predicate ParsedUpTo<L, T>(lines: seq<L>, classify: L -> Step<T>, l: int, items: seq<T>) {
    && 0 <= l <= |lines|
    && Frames(lines, classify).items == items + Frames(lines[l..], classify).items
    && Frames(lines, classify).stopped == Frames(lines[l..], classify).stopped
  }

  /** Parsing line `l` either ends the stream with its item or moves the loop state on by one line. */
  lemma ParseNext<L, T>(lines: seq<L>, classify: L -> Step<T>, l: int, items: seq<T>)
    requires ParsedUpTo(lines, classify, l, items) && l < |lines|
    ensures var step := classify(lines[l]);
            var here := if step.emit.Some? then [step.emit.value] else [];
            if step.stop then Frames(lines, classify) == Framed(items + here, true)
            else ParsedUpTo(lines, classify, l + 1, items + here)
  {
    var step := classify(lines[l]);
    var here := if step.emit.Some? then [step.emit.value] else [];
    FramesAt(lines, l, classify);
    if !step.stop {
      AppendAssociates(items, here, Frames(lines[l + 1..], classify).items);
    }
  }

  /** Framing from line `l` on is line `l`'s step followed, unless it stops, by framing from `l + 1` on. */
  lemma FramesAt<L, T>(lines: seq<L>, l: nat, classify: L -> Step<T>)
    requires l < |lines|
    ensures var step := classify(lines[l]);
            var here := if step.emit.Some? then [step.emit.value] else [];
            Frames(lines[l..], classify)
              == if step.stop then Framed(here, true)
                 else Framed(here + Frames(lines[l + 1..], classify).items, Frames(lines[l + 1..], classify).stopped)
  {
    assert lines[l..][0] == lines[l] && lines[l..][1..] == lines[l + 1..];
  }

  /**
   * The nested loops of the streaming adapters: frame each chunk into lines and
   * parse them, returning as soon as a line ends the stream.
   */
  method ParseStream<T>(chunks: seq<string>, classify: string -> Step<T>) returns (items: seq<T>, stopped: bool)
    ensures Framed(items, stopped) == Frames(AllLines(chunks), classify)
  {
    items := [];
    var c := 0;
    assert chunks[0..] == chunks;
    while c < |chunks|
      invariant StreamParsedUpTo(chunks, classify, c, items)
    {
      var lines := ChunkLines(chunks[c]);
      var chunkItems, chunkStopped := ParseLines(lines, classify);
      ParseChunk(chunks, classify, c, items, chunkItems, chunkStopped);
      items := items + chunkItems;
      if chunkStopped {
        stopped := true;
        return;
      }
      c := c + 1;
    }
    stopped := false;
    assert chunks[c..] == [];
    assert items == items + [];
  }

  /** The loop state of `ParseStream`: `items` were yielded by the chunks before `c`, and none of them stopped. */
  ghost predicate StreamParsedUpTo<T>(chunks: seq<string>, classify: string -> Step<T>, c: int, items: seq<T>) {
    && 0 <= c <= |chunks|
    && Frames(AllLines(chunks), classify).items == items + Frames(AllLines(chunks[c..]), classify).items
    && Frames(AllLines(chunks), classify).stopped == Frames(AllLines(chunks[c..]), classify).stopped
  }

  /** Parsing chunk `c` either ends the stream or moves the loop state on by one chunk. */
  lemma ParseChunk<T>(chunks: seq<string>, classify: string -> Step<T>, c: int, items: seq<T>,
                      chunkItems: seq<T>, chunkStopped: bool)
    requires StreamParsedUpTo(chunks, classify, c, items) && c < |chunks|
    requires Framed(chunkItems, chunkStopped) == Frames(ChunkLines(chunks[c]), classify)
    ensures if chunkStopped then Frames(AllLines(chunks), classify) == Framed(items + chunkItems, true)
            else StreamParsedUpTo(chunks, classify, c + 1, items + chunkItems)
  {
    var lines := ChunkLines(chunks[c]);
    var tail := AllLines(chunks[c + 1..]);
    assert chunks[c..][0] == chunks[c] && chunks[c..][1..] == chunks[c + 1..];
    assert AllLines(chunks[c..]) == lines + tail;
    if chunkStopped {
      FramesStopIgnoresRest(lines, tail, classify);
    } else {
      FramesAppend(lines, tail, classify);
      AppendAssociates(items, chunkItems, Frames(tail, classify).items);
    }
  }

  /**
   * How a streaming adapter ends: the items yielded, and the upstream failure
   * turned into the adapter's error unless a line ended the stream first.
   */
  function Finish<T>(f: Framed<T>, failure: Option<Option<Json>>, errorOf: Option<Json> -> GatewayError)
    : (r: StreamResult<T>)
    ensures r.items == f.items
    ensures r.error.Some? <==> !f.stopped && failure.Some?
    ensures r.error.Some? ==> r.error.value == errorOf(failure.value)
  {
    if f.stopped || failure.None? then StreamResult(f.items, None)
    else StreamResult(f.items, Some(errorOf(failure.value)))
  }

  /**
   * A streaming adapter's generator as a whole: the nested loops with the adapter's
   * own line classifier, then the adapter's error for an upstream failure.
   */
  method RunStream<T>(chunks: seq<string>, classify: string -> Step<T>, failure: Option<Option<Json>>,
                      errorOf: Option<Json> -> GatewayError)
    returns (r: StreamResult<T>)
    ensures r == Finish(Frames(AllLines(chunks), classify), failure, errorOf)
  {
    var items, stopped := ParseStream(chunks, classify);
    r := Finish(Framed(items, stopped), failure, errorOf);
  }

  // ---------------------------------------------------------------------------
  // Properties.

  lemma {:induction false} FramesNoStop<L, T>(lines: seq<L>, classify: L -> Step<T>)
    requires NoStop(lines, classify)
    ensures Frames(lines, classify) == Framed(Emitted(lines, classify), false)
    decreases |lines|
  {
    if |lines| > 0 {
      assert !classify(lines[0]).stop;
      FramesNoStop(lines[1..], classify);
    }
  }

  lemma {:induction false} AllLinesAppend(a: seq<string>, b: seq<string>)
    ensures AllLines(a + b) == AllLines(a) + AllLines(b)
    decreases |a|
  {
    if |a| == 0 {
      assert a + b == b;
    } else {
      assert (a + b)[0] == a[0];
      assert (a + b)[1..] == a[1..] + b;
      AllLinesAppend(a[1..], b);
    }
  }

  /** A chunk that is one line, not blank at either end, frames to that line alone. */
  lemma SingleLineChunk(line: string)
    requires |line| > 0 && !IsWhitespace(line[0]) && !IsWhitespace(line[|line| - 1])
    requires forall k :: 0 <= k < |line| ==> line[k] != '\n'
    ensures AllLines([line]) == [line]
  {
    assert FirstIndexOf(line, '\n') == |line|;
    assert Split(line, '\n') == [line];
    assert TrimStart(line) == line;
    assert TrimEnd(line) == line;
    assert NonBlank([line]) == [line] + NonBlank([]);
    assert ChunkLines(line) == [line];
    assert [line][1..] == [];
  }

  /**
   * When no line ends the stream, every item of every line is yielded, in line
   * order across chunks, and the stream is not reported as ended.
   */
  lemma RunWithoutStop<T>(chunks: seq<string>, classify: string -> Step<T>)
    requires NoStop(AllLines(chunks), classify)
    ensures Frames(AllLines(chunks), classify) == Framed(Emitted(AllLines(chunks), classify), false)
  {
    FramesNoStop(AllLines(chunks), classify);
  }

  /** Once a line ends the stream, no later line, in this chunk or a later one, is looked at. */
  lemma {:induction false} FramesStopIgnoresRest<L, T>(before: seq<L>, after: seq<L>, classify: L -> Step<T>)
    requires Frames(before, classify).stopped
    ensures Frames(before + after, classify) == Frames(before, classify)
    decreases |before|
  {
    assert |before| > 0;
    var whole := before + after;
    assert whole[0] == before[0];
    if !classify(before[0]).stop {
      assert whole[1..] == before[1..] + after;
      FramesStopIgnoresRest(before[1..], after, classify);
    }
  }

  /** Lines that do not end the stream contribute their items and parsing goes on after them. */
  lemma {:induction false} FramesAppend<L, T>(before: seq<L>, after: seq<L>, classify: L -> Step<T>)
    requires !Frames(before, classify).stopped
    ensures Frames(before + after, classify).items == Frames(before, classify).items + Frames(after, classify).items
    ensures Frames(before + after, classify).stopped == Frames(after, classify).stopped
    decreases |before|
  {
    if |before| == 0 {
      assert before + after == after;
    } else {
      var whole := before + after;
      assert whole[0] == before[0];
      assert whole[1..] == before[1..] + after;
      FramesAppend(before[1..], after, classify);
    }
  }

  /** The chunk-level form: chunks after the one that ends the stream change nothing. */
  lemma StreamStopIgnoresLaterChunks<T>(before: seq<string>, after: seq<string>, classify: string -> Step<T>)
    requires Frames(AllLines(before), classify).stopped
    ensures Frames(AllLines(before + after), classify) == Frames(AllLines(before), classify)
  {
    AllLinesAppend(before, after);
    FramesStopIgnoresRest(AllLines(before), AllLines(after), classify);
  }

  /** The items of a stream that ends at line `i` are those of lines 0..i, including line `i`. */
  lemma {:induction false} FramesStopAt<L, T>(lines: seq<L>, i: nat, classify: L -> Step<T>)
    requires i < |lines| && classify(lines[i]).stop
    requires forall k :: 0 <= k < i ==> !classify(lines[k]).stop
    ensures Frames(lines, classify) == Framed(Emitted(lines[..i + 1], classify), true)
    decreases i
  {
    var step := classify(lines[0]);
    var here := if step.emit.Some? then [step.emit.value] else [];
    if i == 0 {
      var one := lines[..1];
      assert one[0] == lines[0] && one[1..] == [];
      assert Emitted(one, classify) == here + [];
    } else {
      assert lines[1..][i - 1] == lines[i];
      assert forall k :: 0 <= k < i - 1 ==> lines[1..][k] == lines[k + 1];
      FramesStopAt(lines[1..], i - 1, classify);
      assert !step.stop;
      var pre := lines[..i + 1];
      assert pre[0] == lines[0] && pre[1..] == lines[1..][..i];
      assert Emitted(pre, classify) == here + Emitted(lines[1..][..i], classify);
    }
  }

  lemma {:induction false} EmittedAppend<L, T>(a: seq<L>, b: seq<L>, classify: L -> Step<T>)
    ensures Emitted(a + b, classify) == Emitted(a, classify) + Emitted(b, classify)
    decreases |a|
  {
    if |a| == 0 {
      assert a + b == b;
    } else {
      assert (a + b)[0] == a[0] && (a + b)[1..] == a[1..] + b;
      EmittedAppend(a[1..], b, classify);
      var step := classify(a[0]);
      AppendAssociates(if step.emit.Some? then [step.emit.value] else [], Emitted(a[1..], classify), Emitted(b, classify));
    }
  }

  /** Each item of a framed stream is the item of one of its lines. */
  lemma {:induction false} FramesItemsEmitted<L, T>(events: seq<L>, classify: L -> Step<T>, k: nat)
    requires k < |Frames(events, classify).items|
    ensures exists i :: 0 <= i < |events| && classify(events[i]).emit == Some(Frames(events, classify).items[k])
    decreases |events|
  {
    var step := classify(events[0]);
    if step.emit.Some? && k == 0 {
      assert classify(events[0]).emit == Some(Frames(events, classify).items[0]);
    } else if !step.stop {
      var j := if step.emit.Some? then k - 1 else k;
      FramesItemsEmitted(events[1..], classify, j);
      var i :| 0 <= i < |events[1..]| && classify(events[1..][i]).emit == Some(Frames(events[1..], classify).items[j]);
      assert classify(events[i + 1]).emit == Some(Frames(events, classify).items[k]);
    }
  }

  // ---------------------------------------------------------------------------
  // Streams read as a sequence of parsed events.

  /** The events of the lines that yield one, in order. */
  function Events<E>(lineEvent: string -> Option<E>, lines: seq<string>): (events: seq<E>)
    ensures |events| <= |lines|
  {
    if |lines| == 0 then []
    else
      var here := if lineEvent(lines[0]).Some? then [lineEvent(lines[0]).value] else [];
      here + Events(lineEvent, lines[1..])
  }

  /** The line classifier of an adapter whose lines matter only through the event they parse to. */
  function OfEvents<E, T>(lineEvent: string -> Option<E>, eventStep: E -> Step<T>): string -> Step<T> {
    line => if lineEvent(line).Some? then eventStep(lineEvent(line).value) else Step(None, false)
  }

  /** Lines that yield no event change nothing: framing the lines is framing their events. */
  lemma {:induction false} FramesOfEvents<E, T>(lineEvent: string -> Option<E>, eventStep: E -> Step<T>, lines: seq<string>)
    ensures Frames(lines, OfEvents(lineEvent, eventStep)) == Frames(Events(lineEvent, lines), eventStep)
    decreases |lines|
  {
    if |lines| > 0 {
      FramesOfEvents(lineEvent, eventStep, lines[1..]);
      var rest := Events(lineEvent, lines[1..]);
      if lineEvent(lines[0]).Some? {
        var events := [lineEvent(lines[0]).value] + rest;
        assert events[0] == lineEvent(lines[0]).value && events[1..] == rest;
      } else {
        assert Events(lineEvent, lines) == rest;
      }
    }
  }
}

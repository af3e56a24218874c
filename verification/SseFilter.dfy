/** The streaming SSE filter: framing, the stripper threaded through delta
    texts, and the block lifecycle it repairs.  How an event's bytes decode into
    lines and JSON payloads is a parameter; a payload is what the filter's JSON
    lookups see of it. */
module SseFilter {
  import opened Text
  import opened ThinkStripping
  import opened StripperMachine

  /** The payload's `type` member. */
  datatype Kind = BlockStart | BlockDelta | BlockStop | MessageStop | OtherKind

  /** A JSON payload, by the members the filter looks up: `index`, whether
      `delta.type` is `text_delta`, the string at `delta.text`, the string at
      `choices[0].delta.content`; `others` stands for all the rest. */
  datatype Payload = Payload(kind: Kind, index: Option<nat>, textDelta: bool, deltaText: Option<bytes>,
                             content: Option<bytes>, others: nat)

  /** One line of an event: JSON data, `data: [DONE]`, or anything else. */
  datatype Line = Data(payload: Payload, raw: bytes) | DoneMarker(raw: bytes) | OtherLine(raw: bytes)

  type Event = seq<Line>

  datatype Shape = OpenAi | Anthropic(index: nat)

  /** What reaches the client, in order. */
  datatype Frame =
    | StartFrame(index: nat)               // synthesized content_block_start
    | DeltaFrame(shape: Shape, text: bytes) // synthesized delta carrying the held tail
    | Rewritten(payload: Payload)
    | PassedOn(line: Line)
    | Undecoded(raw: bytes)                // trailing partial event, at the end only

  /** The filter between events, apart from the bytes still to be framed. */
  datatype Core = Core(stripper: Stripper, shape: Option<Shape>, open: set<nat>)

  datatype State = State(pending: bytes, core: Core)

  const START := State([], Core(FRESH, None, {}))
  const BLANK_LINE: bytes := [10, 10]

  // ----- lookups -----

  function IndexOf(p: Payload): nat { if p.index.Some? then p.index.value else 0 }

  /** The text a payload carries and the shape it is in: OpenAI's place is looked up first. */
  function DeltaOf(p: Payload): Option<(Shape, bytes)> {
    if p.content.Some? then Some((OpenAi, p.content.value))
    else if p.textDelta && p.deltaText.Some? then Some((Anthropic(IndexOf(p)), p.deltaText.value))
    else None
  }

  function WithText(p: Payload, text: bytes): Payload {
    if p.content.Some? then p.(content := Some(text)) else p.(deltaText := Some(text))
  }

  function FirstPayload(e: Event): Option<Payload> {
    if e == [] then None
    else if e[0].Data? then Some(e[0].payload)
    else FirstPayload(e[1..])
  }

  predicate Terminal(e: Event) {
    exists line <- e :: line.DoneMarker? || (line.Data? && line.payload.kind == MessageStop)
  }

  predicate OfKind(e: Event, kind: Kind) {
    FirstPayload(e).Some? && FirstPayload(e).value.kind == kind
  }

  function EventIndex(e: Event): nat {
    if FirstPayload(e).Some? then IndexOf(FirstPayload(e).value) else 0
  }

  /** The held tail is released before a terminator and before a block's stop. */
  predicate Releases(e: Event) {
    Terminal(e) || OfKind(e, BlockStop)
  }

  // ----- one event -----

  function Announce(c: Core, e: Event): (seq<Frame>, Core) {
    var i := EventIndex(e);
    if OfKind(e, BlockStart) then ([], c.(open := c.open + {i}))
    else if OfKind(e, BlockDelta) && FirstPayload(e).value.textDelta && i !in c.open then
      ([StartFrame(i)], c.(open := c.open + {i}))
    else ([], c)
  }

  /** Flushes the stripper, as a delta in the last shape seen. */
  function Flush(c: Core): (seq<Frame>, Core) {
    var (tail, stripper) := FinishStep(c.stripper);
    (if tail != [] && c.shape.Some? then [DeltaFrame(c.shape.value, tail)] else [], c.(stripper := stripper))
  }

  function RewriteLine(c: Core, line: Line): (Frame, Core) {
    if line.Data? && DeltaOf(line.payload).Some? then
      var (shape, text) := DeltaOf(line.payload).value;
      var (out, stripper) := PushStep(c.stripper, text);
      (Rewritten(WithText(line.payload, out)), c.(stripper := stripper, shape := Some(shape)))
    else (PassedOn(line), c)
  }

  function RewriteLines(c: Core, e: Event): (seq<Frame>, Core)
    decreases |e|
  {
    if e == [] then ([], c)
    else
      var (frame, c1) := RewriteLine(c, e[0]);
      var (frames, c2) := RewriteLines(c1, e[1..]);
      ([frame] + frames, c2)
  }

  function Forget(c: Core, e: Event): Core {
    if OfKind(e, BlockStop) then
      var i := EventIndex(e);
      Core(c.stripper, if c.shape == Some(Anthropic(i)) then None else c.shape, c.open - {i})
    else c
  }

  function Transform(c: Core, e: Event): (seq<Frame>, Core) {
    var (starts, c1) := Announce(c, e);
    var (tail, c2) := if Releases(e) then Flush(c1) else ([], c1);
    var (lines, c3) := RewriteLines(c2, e);
    (starts + tail + lines, Forget(c3, e))
  }

  function TransformAll(c: Core, es: seq<Event>): (seq<Frame>, Core)
    decreases |es|
  {
    if es == [] then ([], c)
    else
      var (out, c1) := Transform(c, es[0]);
      var (rest, c2) := TransformAll(c1, es[1..]);
      (out + rest, c2)
  }

  // ----- framing -----

  /** Every complete event at the head of the pending bytes, transformed in turn. */
  function TakeEvents(decode: bytes -> Event, st: State): (seq<Frame>, State)
    decreases |st.pending|
  {
    match Find(st.pending, BLANK_LINE)
    case None => ([], st)
    case Some(i) =>
      var (out, core) := Transform(st.core, decode(st.pending[..i + 2]));
      var (rest, st') := TakeEvents(decode, State(st.pending[i + 2..], core));
      (out + rest, st')
  }

  function FeedStep(decode: bytes -> Event, st: State, chunk: bytes): (seq<Frame>, State) {
    TakeEvents(decode, State(st.pending + chunk, st.core))
  }

  function FeedAll(decode: bytes -> Event, st: State, chunks: seq<bytes>): (seq<Frame>, State)
    decreases |chunks|
  {
    if chunks == [] then ([], st)
    else
      var (out, st1) := FeedStep(decode, st, chunks[0]);
      var (rest, st2) := FeedAll(decode, st1, chunks[1..]);
      (out + rest, st2)
  }

  function EndStep(st: State): (seq<Frame>, State) {
    var (tail, core) := Flush(st.core);
    (tail + (if st.pending == [] then [] else [Undecoded(st.pending)]), State([], core))
  }

  // ----- chunk independence -----

  predicate Framed(st: State) { Find(st.pending, BLANK_LINE).None? }

  lemma {:induction false} TakeEventsFrames(decode: bytes -> Event, st: State)
    ensures Framed(TakeEvents(decode, st).1)
    decreases |st.pending|
  {
    if Find(st.pending, BLANK_LINE).Some? {
      var i := Find(st.pending, BLANK_LINE).value;
      TakeEventsFrames(decode, State(st.pending[i + 2..], Transform(st.core, decode(st.pending[..i + 2])).1));
    }
  }

  /** Bytes that arrive later only continue from where the earlier ones stopped. */
  lemma {:induction false} TakeEventsSplit(decode: bytes -> Event, a: bytes, b: bytes, core: Core)
    ensures var (out1, st1) := TakeEvents(decode, State(a, core));
      var (out2, st2) := FeedStep(decode, st1, b);
      TakeEvents(decode, State(a + b, core)) == (out1 + out2, st2)
    decreases |a|
  {
    if Find(a, BLANK_LINE).Some? {
      var i := Find(a, BLANK_LINE).value;
      FindStable(a, b, BLANK_LINE);
      assert (a + b)[..i + 2] == a[..i + 2] && (a + b)[i + 2..] == a[i + 2..] + b;
      var (out, core') := Transform(core, decode(a[..i + 2]));
      TakeEventsSplit(decode, a[i + 2..], b, core');
      var (rest1, st1) := TakeEvents(decode, State(a[i + 2..], core'));
      Assoc(out, rest1, FeedStep(decode, st1, b).0);
    } else {
      AppendEmpty(TakeEvents(decode, State(a + b, core)).0, TakeEvents(decode, State(a, core)).0);
    }
  }

  /** Any chunking of the stream gives the frames and the state of its bytes in one chunk. */
  lemma {:induction false} ChunkIndependence(decode: bytes -> Event, st: State, chunks: seq<bytes>)
    requires Framed(st)
    ensures FeedAll(decode, st, chunks) == FeedStep(decode, st, Concat(chunks))
    ensures Framed(FeedAll(decode, st, chunks).1)
    decreases |chunks|
  {
    if chunks == [] {
      AppendEmpty(st.pending, []);
    } else {
      var later := Concat(chunks[1..]);
      var joined := State(st.pending + chunks[0], st.core);
      Assoc(st.pending, chunks[0], later);
      TakeEventsSplit(decode, joined.pending, later, st.core);
      TakeEventsFrames(decode, joined);
      ChunkIndependence(decode, TakeEvents(decode, joined).1, chunks[1..]);
    }
  }

  /** The events a byte stream completes, and the bytes after the last of them. */
  function EventsIn(decode: bytes -> Event, b: bytes): seq<Event>
    decreases |b|
  {
    match Find(b, BLANK_LINE)
    case None => []
    case Some(i) => [decode(b[..i + 2])] + EventsIn(decode, b[i + 2..])
  }

  function Unframed(b: bytes): bytes
    decreases |b|
  {
    match Find(b, BLANK_LINE)
    case None => b
    case Some(i) => Unframed(b[i + 2..])
  }

  lemma {:induction false} TakeEventsRuns(decode: bytes -> Event, b: bytes, core: Core)
    ensures var (out, core') := TransformAll(core, EventsIn(decode, b));
      TakeEvents(decode, State(b, core)) == (out, State(Unframed(b), core'))
    decreases |b|
  {
    if Find(b, BLANK_LINE).Some? {
      var i := Find(b, BLANK_LINE).value;
      var e, later := decode(b[..i + 2]), EventsIn(decode, b[i + 2..]);
      TakeEventsRuns(decode, b[i + 2..], Transform(core, e).1);
      assert ([e] + later)[1..] == later;
    }
  }

  /** The bytes of each event a byte stream completes. */
  function Frames(b: bytes): seq<bytes>
    decreases |b|
  {
    match Find(b, BLANK_LINE)
    case None => []
    case Some(i) => [b[..i + 2]] + Frames(b[i + 2..])
  }

  /** An event ends at its first two line feeds in a row. */
  ghost predicate OneEvent(raw: bytes) {
    |raw| >= 2 && raw[|raw| - 2] == 10 && raw[|raw| - 1] == 10 &&
    forall k :: 0 <= k < |raw| - 2 ==> !(raw[k] == 10 && raw[k + 1] == 10)
  }

  lemma AtBlank(b: bytes, k: int)
    ensures At(b, BLANK_LINE, k) <==> 0 <= k < |b| - 1 && b[k] == 10 && b[k + 1] == 10
  {
    if 0 <= k < |b| - 1 {
      assert b[k..k + 2] == [b[k], b[k + 1]];
    }
  }

  lemma FirstEvent(b: bytes, i: nat)
    requires Find(b, BLANK_LINE) == Some(i)
    ensures OneEvent(b[..i + 2]) && b[..i + 2] + b[i + 2..] == b
  {
    FindFirst(b, BLANK_LINE);
    AtBlank(b, i);
    forall k | 0 <= k < i ensures !(b[k] == 10 && b[k + 1] == 10) { AtBlank(b, k); }
  }

  /** The stream is its events, one after the other, and the bytes still to come to one:
      nothing is skipped, and every event has its blank line at its end and nowhere else. */
  lemma {:induction false} StreamIsFramed(decode: bytes -> Event, b: bytes)
    ensures Concat(Frames(b)) + Unframed(b) == b
    ensures EventsIn(decode, b) == Map(decode, Frames(b))
    ensures forall raw <- Frames(b) :: OneEvent(raw)
    ensures forall k :: 0 <= k < |Unframed(b)| - 1 ==> !(Unframed(b)[k] == 10 && Unframed(b)[k + 1] == 10)
    decreases |b|
  {
    hide OneEvent;
    match Find(b, BLANK_LINE)
    case None =>
      FindFirst(b, BLANK_LINE);
      forall k | 0 <= k < |b| - 1 ensures !(b[k] == 10 && b[k + 1] == 10) { AtBlank(b, k); }
      AppendEmpty(b, []);
    case Some(i) =>
      var raw, rest := b[..i + 2], b[i + 2..];
      FirstEvent(b, i);
      StreamIsFramed(decode, rest);
      assert ([raw] + Frames(rest))[1..] == Frames(rest);
      Assoc(raw, Concat(Frames(rest)), Unframed(rest));
      MapAppend(decode, [raw], Frames(rest));
      MapOne(decode, raw);
  }

  // ----- the object -----

  predicate TextsWellFormed(e: Event) {
    forall line <- e :: line.Data? && DeltaOf(line.payload).Some? ==> Utf8(DeltaOf(line.payload).value.1)
  }

  class SseThinkFilter {
    const decode: bytes -> Event
    const stripper: ThinkStripper
    var pending: bytes
    var shape: Option<Shape>
    var openBlocks: set<nat>

    ghost function CoreState(): Core
      reads this, stripper
    {
      Core(stripper.State(), shape, openBlocks)
    }

    ghost function FilterState(): State
      reads this, stripper
    {
      State(pending, CoreState())
    }

    /** JSON strings are well-formed text, whatever the bytes. */
    ghost predicate Valid()
      reads this, stripper
    {
      stripper.Valid() && forall raw :: TextsWellFormed(decode(raw))
    }

    constructor (decode: bytes -> Event)
      requires forall raw :: TextsWellFormed(decode(raw))
      ensures Valid() && FilterState() == START && this.decode == decode && fresh(stripper)
    {
      this.decode := decode;
      stripper := new ThinkStripper();
      pending, shape, openBlocks := [], None, {};
    }

    method RewriteData(payload: Payload) returns (rewritten: Option<Payload>)
      requires Valid() && (DeltaOf(payload).Some? ==> Utf8(DeltaOf(payload).value.1))
      modifies this`shape, stripper
      ensures Valid() && pending == old(pending) && openBlocks == old(openBlocks)
      ensures forall raw :: var line := Data(payload, raw);
        var frame := if rewritten.Some? then Rewritten(rewritten.value) else PassedOn(line);
        RewriteLine(old(CoreState()), line) == (frame, CoreState())
    {
      if payload.content.Some? {
        shape := Some(OpenAi);
        var stripped := stripper.Push(payload.content.value);
        return Some(payload.(content := Some(stripped)));
      }
      if payload.textDelta && payload.deltaText.Some? {
        shape := Some(Anthropic(IndexOf(payload)));
        var stripped := stripper.Push(payload.deltaText.value);
        return Some(payload.(deltaText := Some(stripped)));
      }
      return None;
    }

    method ReleaseTail() returns (frames: seq<Frame>)
      requires Valid()
      modifies stripper
      ensures Valid() && (frames, CoreState()) == Flush(old(CoreState()))
    {
      var tail := stripper.Finish();
      frames := [];
      if tail != [] && shape.Some? {
        frames := [DeltaFrame(shape.value, tail)];
      }
    }

    method RewriteEvent(event: Event) returns (lines: seq<Frame>)
      requires Valid() && TextsWellFormed(event)
      modifies this`shape, stripper
      ensures Valid() && pending == old(pending) && openBlocks == old(openBlocks)
      ensures (lines, CoreState()) == RewriteLines(old(CoreState()), event)
    {
      lines := [];
      ghost var all := RewriteLines(CoreState(), event);
      assert event[0..] == event;
      AppendEmpty(all.0, lines);
      for n := 0 to |event|
        invariant Valid() && pending == old(pending) && openBlocks == old(openBlocks)
        invariant var rest := RewriteLines(CoreState(), event[n..]); all == (lines + rest.0, rest.1)
      {
        var line := event[n];
        ghost var before := CoreState();
        var frame := PassedOn(line);
        if line.Data? {
          var rewritten := RewriteData(line.payload);
          assert line == Data(line.payload, line.raw);
          if rewritten.Some? {
            frame := Rewritten(rewritten.value);
          }
        }
        assert (frame, CoreState()) == RewriteLine(before, line);
        assert event[n..][1..] == event[n + 1..];
        Assoc(lines, [frame], RewriteLines(CoreState(), event[n + 1..]).0);
        lines := lines + [frame];
      }
      AppendEmpty(lines, RewriteLines(CoreState(), event[|event|..]).0);
    }

    method TransformEvent(event: Event) returns (frames: seq<Frame>)
      requires Valid() && TextsWellFormed(event)
      modifies this`shape, this`openBlocks, stripper
      ensures Valid() && pending == old(pending)
      ensures (frames, CoreState()) == Transform(old(CoreState()), event)
    {
      var starts: seq<Frame>, tail: seq<Frame> := [], [];
      var i := EventIndex(event);
      if OfKind(event, BlockStart) {
        openBlocks := openBlocks + {i};
      } else if OfKind(event, BlockDelta) && FirstPayload(event).value.textDelta && i !in openBlocks {
        openBlocks := openBlocks + {i};
        starts := [StartFrame(i)];
      }
      if Releases(event) {
        tail := ReleaseTail();
      }
      var lines := RewriteEvent(event);
      frames := starts + tail + lines;
      if OfKind(event, BlockStop) {
        openBlocks := openBlocks - {i};
        if shape == Some(Anthropic(i)) {
          shape := None;
        }
      }
    }

    /** Feeds raw bytes: emits and keeps what `FeedStep` says. */
    method Push(chunk: bytes) returns (out: seq<Frame>)
      requires Valid()
      modifies this, stripper
      ensures Valid()
      ensures (out, FilterState()) == FeedStep(decode, old(FilterState()), chunk)
    {
      pending := pending + chunk;
      ghost var all := TakeEvents(decode, FilterState());
      out := [];
      AppendEmpty(all.0, out);
      while Find(pending, BLANK_LINE).Some?
        invariant Valid()
        invariant var rest := TakeEvents(decode, FilterState()); all == (out + rest.0, rest.1)
        decreases |pending|
      {
        var i := Find(pending, BLANK_LINE).value;
        var event := decode(pending[..i + 2]);
        pending := pending[i + 2..];
        var frames := TransformEvent(event);
        Assoc(out, frames, TakeEvents(decode, FilterState()).0);
        out := out + frames;
      }
      AppendEmpty(out, TakeEvents(decode, FilterState()).0);
    }

    method Finish() returns (out: seq<Frame>)
      requires Valid()
      modifies this, stripper
      ensures Valid()
      ensures (out, FilterState()) == EndStep(old(FilterState()))
    {
      var tail := ReleaseTail();
      var rest: seq<Frame> := [];
      if pending != [] {
        rest := [Undecoded(pending)];
        pending := [];
      }
      out := tail + rest;
    }
  }
}

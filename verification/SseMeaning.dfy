/** What the client reads of one event and of one block: the stripper's output, the
    held tail before the block's end, and when a tail has no shape left to go out in. */
module SseMeaning {
  import opened Text
  import opened ThinkStripping
  import opened StripperLedger
  import opened SseFilter

  type Delta = (Shape, bytes)

  function LineDeltas(line: Line): seq<Delta> {
    if line.Data? && DeltaOf(line.payload).Some? then [DeltaOf(line.payload).value] else []
  }

  function FrameDeltas(f: Frame): seq<Delta> {
    match f
    case DeltaFrame(shape, text) => [(shape, text)]
    case Rewritten(p) => if DeltaOf(p).Some? then [DeltaOf(p).value] else []
    case _ => []
  }

  /** The text deltas of an event, in order. */
  function DeltasIn(e: Event): seq<Delta> { FlatMap(LineDeltas, e) }

  function DeltasInAll(es: seq<Event>): seq<Delta> { FlatMap(DeltasIn, es) }

  /** The text deltas the client is handed, in order. */
  function DeltasOut(frames: seq<Frame>): seq<Delta> { FlatMap(FrameDeltas, frames) }

  function TextOf(d: Delta): bytes { d.1 }

  function Texts(ds: seq<Delta>): seq<bytes> { Map(TextOf, ds) }

  function Spoken(ds: seq<Delta>): bytes { Concat(Texts(ds)) }

  /** Every delta is in one of the given shapes. */
  predicate Labelled(ds: seq<Delta>, shapes: set<Shape>) {
    forall d <- ds :: d.0 in shapes
  }

  lemma SpokenAppend(a: seq<Delta>, b: seq<Delta>)
    ensures Spoken(a + b) == Spoken(a) + Spoken(b)
  {
    MapAppend(TextOf, a, b);
    ConcatAppend(Texts(a), Texts(b));
  }

  lemma SpokenOne(d: Delta)
    ensures Spoken([d]) == d.1
  {
    MapOne(TextOf, d);
    ConcatOne(d.1);
  }

  lemma {:induction false} PushAllAppend(st: Stripper, a: seq<bytes>, b: seq<bytes>)
    ensures var (out1, st1) := PushAll(st, a);
      var (out2, st2) := PushAll(st1, b);
      PushAll(st, a + b) == (out1 + out2, st2)
    decreases |a|
  {
    if a == [] {
      assert a + b == b;
      AppendEmpty(PushAll(st, b).0, []);
    } else {
      var (out, st1) := PushStep(st, a[0]);
      PushAllAppend(st1, a[1..], b);
      assert (a + b)[0] == a[0] && (a + b)[1..] == a[1..] + b;
      var (rest, st2) := PushAll(st1, a[1..]);
      Assoc(out, rest, PushAll(st2, b).0);
    }
  }

  // ----- the client reads the stripper's output -----

  /** The filter's texts and state after some deltas, in terms of the stripper
      alone; every delta handed out is in the shape of one that came in. */
  ghost predicate Follows(c: Core, ds: seq<Delta>, out: seq<Delta>, c': Core, shapes: set<Shape>) {
    Spoken(out) == PushAll(c.stripper, Texts(ds)).0 &&
    c'.stripper == PushAll(c.stripper, Texts(ds)).1 &&
    c'.shape == (if ds == [] then c.shape else Some(ds[|ds| - 1].0)) &&
    (Labelled(ds, shapes) ==> Labelled(out, shapes))
  }

  lemma FollowsTrans(c: Core, a: seq<Delta>, outA: seq<Delta>, c1: Core, b: seq<Delta>, outB: seq<Delta>, c2: Core,
      shapes: set<Shape>)
    requires Follows(c, a, outA, c1, shapes) && Follows(c1, b, outB, c2, shapes)
    ensures Follows(c, a + b, outA + outB, c2, shapes)
  {
    MapAppend(TextOf, a, b);
    PushAllAppend(c.stripper, Texts(a), Texts(b));
    SpokenAppend(outA, outB);
    if b == [] {
      assert a + b == a;
    } else {
      assert (a + b)[|a + b| - 1] == b[|b| - 1];
    }
    if Labelled(a + b, shapes) {
      forall d | d in a || d in b ensures d in a + b { }
    }
  }

  lemma FollowsNothing(c: Core, shapes: set<Shape>)
    ensures Follows(c, [], [], c, shapes)
  {
  }

  lemma PushOne(st: Stripper, text: bytes)
    ensures PushAll(st, [text]) == PushStep(st, text)
  {
    assert [text][1..] == [];
    AppendEmpty(PushStep(st, text).0, []);
  }

  lemma RewriteLineFollows(c: Core, line: Line, shapes: set<Shape>)
    ensures var (frame, c') := RewriteLine(c, line);
      Follows(c, LineDeltas(line), FrameDeltas(frame), c', shapes)
  {
    if line.Data? && DeltaOf(line.payload).Some? {
      var d := DeltaOf(line.payload).value;
      var out := PushStep(c.stripper, d.1).0;
      assert DeltaOf(WithText(line.payload, out)) == Some((d.0, out));
      MapOne(TextOf, d);
      PushOne(c.stripper, d.1);
      SpokenOne((d.0, out));
    } else {
      FollowsNothing(c, shapes);
    }
  }

  lemma {:induction false} LinesFollow(c: Core, e: Event, shapes: set<Shape>)
    ensures var (frames, c') := RewriteLines(c, e); Follows(c, DeltasIn(e), DeltasOut(frames), c', shapes)
    decreases |e|
  {
    if e == [] {
      FollowsNothing(c, shapes);
    } else {
      var (frame, c1) := RewriteLine(c, e[0]);
      var (frames, c2) := RewriteLines(c1, e[1..]);
      RewriteLineFollows(c, e[0], shapes);
      LinesFollow(c1, e[1..], shapes);
      FollowsTrans(c, LineDeltas(e[0]), FrameDeltas(frame), c1, DeltasIn(e[1..]), DeltasOut(frames), c2, shapes);
      FlatMapCons(FrameDeltas, frame, frames);
    }
  }

  lemma AnnounceQuiet(c: Core, e: Event)
    ensures DeltasOut(Announce(c, e).0) == []
    ensures Announce(c, e).1.stripper == c.stripper && Announce(c, e).1.shape == c.shape
  {
    var starts := Announce(c, e).0;
    if starts != [] {
      FlatMapOne(FrameDeltas, starts[0]);
      assert starts == [starts[0]];
    }
  }

  lemma EventFollows(c: Core, e: Event, shapes: set<Shape>)
    requires !Releases(e)
    ensures var (frames, c') := Transform(c, e); Follows(c, DeltasIn(e), DeltasOut(frames), c', shapes)
  {
    var (starts, c1) := Announce(c, e);
    var lines := RewriteLines(c1, e).0;
    AnnounceQuiet(c, e);
    LinesFollow(c1, e, shapes);
    AppendEmpty(starts, []);
    FlatMapAppend(FrameDeltas, starts, lines);
    AppendEmpty(DeltasOut(lines), []);
  }

  lemma {:induction false} BodyFollows(c: Core, es: seq<Event>, shapes: set<Shape>)
    requires forall e <- es :: !Releases(e)
    ensures var (frames, c') := TransformAll(c, es); Follows(c, DeltasInAll(es), DeltasOut(frames), c', shapes)
    decreases |es|
  {
    if es == [] {
      FollowsNothing(c, shapes);
    } else {
      var (frames, c1) := Transform(c, es[0]);
      var (rest, c2) := TransformAll(c1, es[1..]);
      EventFollows(c, es[0], shapes);
      BodyFollows(c1, es[1..], shapes);
      FollowsTrans(c, DeltasIn(es[0]), DeltasOut(frames), c1, DeltasInAll(es[1..]), DeltasOut(rest), c2, shapes);
      FlatMapAppend(FrameDeltas, frames, rest);
    }
  }

  // ----- an event's own lines -----

  function Pass(line: Line): Frame { PassedOn(line) }

  /** A line goes out as it came, or as its payload with another text. */
  ghost predicate OwnLine(f: Frame, line: Line) {
    if LineDeltas(line) == [] then f == PassedOn(line)
    else exists text :: f == Rewritten(WithText(line.payload, text))
  }

  ghost predicate OwnLines(frames: seq<Frame>, e: Event) {
    |frames| >= |e| && forall j :: 0 <= j < |e| ==> OwnLine(frames[j], e[j])
  }

  lemma {:induction false} LinesAreOwn(c: Core, e: Event)
    ensures |RewriteLines(c, e).0| == |e| && OwnLines(RewriteLines(c, e).0, e)
    decreases |e|
  {
    if e != [] {
      var (frame, c1) := RewriteLine(c, e[0]);
      LinesAreOwn(c1, e[1..]);
      assert OwnLine(frame, e[0]) by {
        if LineDeltas(e[0]) != [] {
          assert frame == Rewritten(WithText(e[0].payload, PushStep(c.stripper, DeltaOf(e[0].payload).value.1).0));
        }
      }
    }
  }

  /** Without text the lines go out as they came. */
  lemma {:induction false} NoDeltas(c: Core, e: Event)
    requires DeltasIn(e) == []
    ensures RewriteLines(c, e) == (Map(Pass, e), c) && DeltasOut(Map(Pass, e)) == []
    decreases |e|
  {
    if e == [] {
      assert Map(Pass, e) == [];
    } else {
      assert LineDeltas(e[0]) == [] && RewriteLine(c, e[0]) == (PassedOn(e[0]), c);
      NoDeltas(c, e[1..]);
      MapCons(Pass, e);
      FlatMapCons(FrameDeltas, PassedOn(e[0]), Map(Pass, e[1..]));
    }
  }

  // ----- what comes before an event's own lines -----

  /** A missing start and, before a release, the held tail. */
  function Prelude(c: Core, e: Event): (seq<Frame>, Core) {
    var (starts, c1) := Announce(c, e);
    var (tail, c2) := if Releases(e) then Flush(c1) else ([], c1);
    (starts + tail, c2)
  }

  /** The deltas the held tail goes out in. */
  function TailDeltas(c: Core): seq<Delta> {
    if c.stripper.buf != [] && c.shape.Some? then [(c.shape.value, c.stripper.buf)] else []
  }

  lemma FlushReads(c: Core)
    ensures DeltasOut(Flush(c).0) == TailDeltas(c)
  {
    var tail := Flush(c).0;
    if tail != [] {
      FlatMapOne(FrameDeltas, tail[0]);
      assert tail == [tail[0]];
    }
  }

  lemma PreludeReads(c: Core, e: Event)
    ensures DeltasOut(Prelude(c, e).0) == (if Releases(e) then TailDeltas(c) else [])
    ensures Prelude(c, e).1.stripper == (if Releases(e) then FRESH else c.stripper)
    ensures Prelude(c, e).1.shape == c.shape
  {
    var (starts, c1) := Announce(c, e);
    AnnounceQuiet(c, e);
    if Releases(e) {
      FlatMapAppend(FrameDeltas, starts, Flush(c1).0);
      FlushReads(c1);
      AppendEmpty(TailDeltas(c), DeltasOut(starts));
    } else {
      AppendEmpty(starts, []);
    }
  }

  // ----- which events release, and which deltas are text, told of the lines themselves -----

  /** The first JSON data line is of the given kind. */
  ghost predicate FirstDataIs(e: Event, kind: Kind) {
    exists k :: 0 <= k < |e| && e[k].Data? && e[k].payload.kind == kind && forall j :: 0 <= j < k ==> !e[j].Data?
  }

  /** `data: [DONE]`, or `message_stop` on any data line. */
  ghost predicate EndsStream(e: Event) {
    exists k :: 0 <= k < |e| && (e[k].DoneMarker? || (e[k].Data? && e[k].payload.kind == MessageStop))
  }

  lemma {:induction false} FirstData(e: Event, kind: Kind)
    ensures FirstDataIs(e, kind) <==> OfKind(e, kind)
  {
    if e != [] {
      assert forall k :: 0 <= k < |e[1..]| ==> e[1..][k] == e[k + 1];
      if e[0].Data? {
        assert e[0].payload.kind == kind ==> FirstDataIs(e, kind);
      } else {
        FirstData(e[1..], kind);
        if FirstDataIs(e, kind) {
          var k :| 0 <= k < |e| && e[k].Data? && e[k].payload.kind == kind && forall j :: 0 <= j < k ==> !e[j].Data?;
          assert k > 0 && e[1..][k - 1] == e[k];
          assert forall j :: 0 <= j < k - 1 ==> e[1..][j] == e[j + 1];
          assert FirstDataIs(e[1..], kind);
        }
        if FirstDataIs(e[1..], kind) {
          var k :| 0 <= k < |e[1..]| && e[1..][k].Data? && e[1..][k].payload.kind == kind &&
                   forall j :: 0 <= j < k ==> !e[1..][j].Data?;
          assert forall j :: 0 <= j < k + 1 ==> j == 0 || e[j] == e[1..][j - 1];
        }
      }
    }
  }

  /** The held tail is released before a terminator and before a block's stop, and before nothing else. */
  lemma ReleasesAre(e: Event)
    ensures Releases(e) <==> EndsStream(e) || FirstDataIs(e, BlockStop)
  {
    FirstData(e, BlockStop);
    if Terminal(e) {
      var line :| line in e && (line.DoneMarker? || (line.Data? && line.payload.kind == MessageStop));
      var k :| 0 <= k < |e| && e[k] == line;
    }
    if EndsStream(e) {
      var k :| 0 <= k < |e| && (e[k].DoneMarker? || (e[k].Data? && e[k].payload.kind == MessageStop));
      assert e[k] in e;
    }
  }

  /** Such an event's frames, from every state: what was held, in the last shape, and only
      then the event's own lines, their text read by a stripper that holds nothing. */
  lemma TailGoesFirst(c: Core, e: Event) returns (before: seq<Frame>, next: Core)
    requires EndsStream(e) || FirstDataIs(e, BlockStop)
    ensures DeltasOut(before) == TailDeltas(c) && next.stripper == FRESH
    ensures Transform(c, e).0 == before + RewriteLines(next, e).0
    ensures |RewriteLines(next, e).0| == |e| && OwnLines(RewriteLines(next, e).0, e)
  {
    ReleasesAre(e);
    before, next := Prelude(c, e).0, Prelude(c, e).1;
    PreludeReads(c, e);
    LinesAreOwn(next, e);
  }

  /** Every other event leaves the held text held, and only its own deltas go out. */
  lemma TailWaits(c: Core, e: Event) returns (before: seq<Frame>, next: Core)
    requires !EndsStream(e) && !FirstDataIs(e, BlockStop)
    ensures DeltasOut(before) == [] && next.stripper == c.stripper
    ensures Transform(c, e).0 == before + RewriteLines(next, e).0
    ensures Transform(c, e).1.stripper == RewriteLines(next, e).1.stripper
  {
    ReleasesAre(e);
    before, next := Prelude(c, e).0, Prelude(c, e).1;
    PreludeReads(c, e);
  }

  /** A data line's text: OpenAI's place first, else Anthropic's in a text delta. It alone
      is replaced, by what the stripper lets out; any other line goes out as it came. */
  lemma TextPlaces(c: Core, p: Payload, raw: bytes)
    ensures var (frame, next) := RewriteLine(c, Data(p, raw));
      match p.content
      case Some(text) =>
        frame == Rewritten(p.(content := Some(PushStep(c.stripper, text).0))) &&
        next == c.(stripper := PushStep(c.stripper, text).1, shape := Some(OpenAi))
      case None =>
        if p.textDelta && p.deltaText.Some? then
          var text := p.deltaText.value;
          frame == Rewritten(p.(deltaText := Some(PushStep(c.stripper, text).0))) &&
          next == c.(stripper := PushStep(c.stripper, text).1,
                     shape := Some(Anthropic(OrElse(p.index, 0))))
        else frame == PassedOn(Data(p, raw)) && next == c
  {
  }

  lemma {:induction false} TransformAppend(c: Core, es: seq<Event>, e: Event)
    ensures var (out, c1) := TransformAll(c, es);
      TransformAll(c, es + [e]) == (out + Transform(c1, e).0, Transform(c1, e).1)
    decreases |es|
  {
    if es == [] {
      assert es + [e] == [e] && [e][1..] == [];
      AppendEmpty(Transform(c, e).0, []);
    } else {
      var (frames, c1) := Transform(c, es[0]);
      var (rest, c2) := TransformAll(c1, es[1..]);
      assert (es + [e])[0] == es[0] && (es + [e])[1..] == es[1..] + [e];
      TransformAppend(c1, es[1..], e);
      Assoc(frames, rest, Transform(c2, e).0);
    }
  }

  /** After a terminator without text nothing is left for the end of the stream but what never became an event. */
  lemma NothingAfterTerminator(es: seq<Event>, last: Event, pending: bytes)
    requires EndsStream(last) && DeltasIn(last) == []
    ensures EndStep(State(pending, TransformAll(START.core, es + [last]).1)).0 ==
            if pending == [] then [] else [Undecoded(pending)]
  {
    TransformAppend(START.core, es, last);
    var c := TransformAll(START.core, es).1;
    ReleasesAre(last);
    PreludeReads(c, last);
    NoDeltas(Prelude(c, last).1, last);
  }

  /** "hi" is out before `[DONE]`, although the stripper had to hold it. */
  lemma TailBeforeDone(p: Payload, raw: bytes, marker: bytes)
    requires p.content == Some([0x68, 0x69]) && p.kind == OtherKind
    ensures var es := [[Data(p, raw)], [DoneMarker(marker)]];
      TransformAll(START.core, es).0 ==
        [Rewritten(p.(content := Some([]))), DeltaFrame(OpenAi, [0x68, 0x69]), PassedOn(DoneMarker(marker))]
  {
    var hi: bytes := [0x68, 0x69];
    var say: Event, done: Event := [Data(p, raw)], [DoneMarker(marker)];
    var out := Rewritten(p.(content := Some([])));
    var c1, c2 := Core(Stripper(hi, false), Some(OpenAi), {}), Core(FRESH, Some(OpenAi), {});
    assert [] + hi == hi;
    assert PushStep(FRESH, hi) == ([], Stripper(hi, false));
    assert say[1..] == [] && done[1..] == [] && done[0] in done;
    assert RewriteLine(START.core, say[0]) == (out, c1);
    assert RewriteLines(c1, []) == ([], c1) && RewriteLines(c2, []) == ([], c2);
    assert RewriteLines(START.core, say) == ([out] + [], c1);
    assert FirstPayload(say) == Some(p) && !Terminal(say);
    assert Transform(START.core, say) == ([] + [] + ([out] + []), c1);
    assert FirstPayload(done[1..]) == None && FirstPayload(done) == None && Terminal(done);
    assert Flush(c1) == ([DeltaFrame(OpenAi, hi)], c2);
    assert RewriteLines(c2, done) == ([PassedOn(done[0])] + [], c2);
    assert Transform(c1, done) == ([] + [DeltaFrame(OpenAi, hi)] + ([PassedOn(done[0])] + []), c2);
    assert [say][1..] == [] && TransformAll(c1, []) == ([], c1);
    assert TransformAll(START.core, [say]) == ([] + [] + ([out] + []) + [], c1);
    TransformAppend(START.core, [say], done);
    assert [say] + [done] == [say, done];
  }

  // ----- one block -----

  /** Text between releases: events that release nothing, then one that does and carries no text itself. */
  datatype Segment = Segment(body: seq<Event>, end: Event)

  predicate Bounded(s: Segment) {
    (forall e <- s.body :: !Releases(e)) && Releases(s.end) && DeltasIn(s.end) == []
  }

  function SegmentStep(c: Core, s: Segment): (seq<Frame>, Core) {
    var (body, c1) := TransformAll(c, s.body);
    var (end, c2) := Transform(c1, s.end);
    (body + end, c2)
  }

  function Said(s: Segment): bytes { Spoken(DeltasInAll(s.body)) }

  /** What the stripper still holds after some deltas goes out in their shape. */
  lemma TailReads(c: Core, ds: seq<Delta>, out: seq<Delta>, c1: Core, shapes: set<Shape>)
    requires Follows(c, ds, out, c1, shapes) && c.stripper == FRESH && Labelled(ds, shapes)
    ensures Spoken(TailDeltas(c1)) == c1.stripper.buf && Labelled(TailDeltas(c1), shapes)
  {
    if c1.stripper.buf != [] {
      assert ds != [] && ds[|ds| - 1] in ds;
      SpokenOne((c1.shape.value, c1.stripper.buf));
    }
  }

  lemma EndingFrames(c: Core, end: Event)
    requires Releases(end) && DeltasIn(end) == []
    ensures Transform(c, end).0 == Prelude(c, end).0 + Map(Pass, end)
    ensures Transform(c, end).1.stripper == FRESH
  {
    hide FlatMap, Map, DeltaOf, RewriteLine;
    PreludeReads(c, end);
    NoDeltas(Prelude(c, end).1, end);
  }

  /** A block's text reaches the client before the first line of its end, stripped as
      if it had come in one piece, and every piece carries the shape of a delta of the
      block; the end's own lines follow as they came, and nothing after them. */
  lemma SegmentMeaning(c: Core, s: Segment, shapes: set<Shape>)
    requires Bounded(s) && c.stripper == FRESH && SpansFit(Said(s), false)
    requires Labelled(DeltasInAll(s.body), shapes)
    ensures var (frames, c') := SegmentStep(c, s);
      c'.stripper == FRESH &&
      exists before :: frames == before + Map(Pass, s.end) &&
        Spoken(DeltasOut(before)) == StripThink(Said(s)) && Labelled(DeltasOut(before), shapes)
  {
    hide PushAll, Transform, TransformAll, Releases, StripThink, SpansFit, FlatMap, Concat, Map, DeltaOf;
    var ds := DeltasInAll(s.body);
    var (body, c1) := TransformAll(c, s.body);
    var (prelude, c2) := Prelude(c1, s.end);
    BodyFollows(c, s.body, shapes);
    PreludeReads(c1, s.end);
    TailReads(c, ds, DeltasOut(body), c1, shapes);
    NoDeltas(c2, s.end);
    FlatMapAppend(FrameDeltas, body, prelude);
    SpokenAppend(DeltasOut(body), DeltasOut(prelude));
    StreamFits(Said(s), Texts(ds));
    Assoc(body, prelude, Map(Pass, s.end));
    EndingFrames(c1, s.end);
    assert SegmentStep(c, s).0 == (body + prelude) + Map(Pass, s.end);
  }

  // ----- when held text has no shape to be delivered in -----

  predicate Sound(c: Core) {
    c.stripper.buf != [] ==> c.shape.Some?
  }

  /** One JSON data line at most. */
  predicate OneData(e: Event) {
    forall j, k :: 0 <= j < k < |e| ==> !(e[j].Data? && e[k].Data?)
  }

  function LastShape(ds: seq<Delta>): Shape
    requires ds != []
  {
    ds[|ds| - 1].0
  }

  /** A block stop that carries text of its own block. */
  predicate Forgets(e: Event) {
    OfKind(e, BlockStop) && DeltasIn(e) != [] && LastShape(DeltasIn(e)) == Anthropic(EventIndex(e))
  }

  /** And whose text ends in something the stripper must hold back. */
  predicate Strands(e: Event) {
    Forgets(e) && LeavesTail(Parse(Spoken(DeltasIn(e))))
  }

  lemma {:induction false} QuietIn(e: Event)
    requires forall k :: 0 <= k < |e| ==> !e[k].Data?
    ensures DeltasIn(e) == []
  {
    if e != [] { QuietIn(e[1..]); }
  }

  /** With one data line there is one delta at most. */
  lemma {:induction false} OneDelta(e: Event)
    requires OneData(e) && TextsWellFormed(e)
    ensures |DeltasIn(e)| <= 1 && forall d <- DeltasIn(e) :: Utf8(d.1)
  {
    if e != [] {
      assert forall k :: 0 <= k < |e[1..]| ==> e[1..][k] == e[k + 1];
      assert e[0] in e;
      if e[0].Data? {
        QuietIn(e[1..]);
        AppendEmpty(LineDeltas(e[0]), []);
      } else {
        OneDelta(e[1..]);
      }
    }
  }

  /** What a stop's own text leaves held, told by the text alone. */
  lemma StopHolds(e: Event)
    requires OneData(e) && TextsWellFormed(e)
    ensures PushAll(FRESH, Texts(DeltasIn(e))).1.buf != [] <==> LeavesTail(Parse(Spoken(DeltasIn(e))))
  {
    var ds := DeltasIn(e);
    OneDelta(e);
    if ds == [] {
      assert Spoken(ds) == [];
    } else {
      var text := ds[0].1;
      assert ds == [ds[0]];
      MapOne(TextOf, ds[0]);
      SpokenOne(ds[0]);
      PushOne(FRESH, text);
      AppendEmpty(text, []);
      PushLeavesTail(text);
    }
  }

  const BARE := Core(FRESH, None, {})

  lemma StrandingShows(e: Event)
    requires OneData(e) && TextsWellFormed(e) && Strands(e)
    ensures !Sound(Transform(BARE, e).1)
  {
    var c := Prelude(BARE, e).1;
    PreludeReads(BARE, e);
    LinesFollow(c, e, {});
    StopHolds(e);
  }

  lemma SoundStep(c: Core, e: Event)
    requires OneData(e) && TextsWellFormed(e) && Sound(c) && !Strands(e)
    ensures Sound(Transform(c, e).1)
  {
    PreludeReads(c, e);
    LinesFollow(Prelude(c, e).1, e, {});
    StopHolds(e);
  }

  /** Held text keeps a shape across an event, in every state, exactly when the event strands none. */
  lemma SoundIffNotStranding(e: Event)
    requires OneData(e) && TextsWellFormed(e)
    ensures (forall c :: Sound(c) ==> Sound(Transform(c, e).1)) <==> !Strands(e)
  {
    if Strands(e) {
      StrandingShows(e);
      assert Sound(BARE);
    } else {
      forall c | Sound(c) ensures Sound(Transform(c, e).1) { SoundStep(c, e); }
    }
  }

  /** Such an event loses its text: here "hi" is neither delivered with it nor at the end. */
  lemma StrandedTextIsLost()
    ensures var hi: bytes := [0x68, 0x69];
      var stop: Event := [Data(Payload(BlockStop, Some(0), true, Some(hi), None, 0), [])];
      var (frames, core) := Transform(START.core, stop);
      OneData(stop) && TextsWellFormed(stop) && Strands(stop) && Spoken(DeltasInAll([stop])) == hi &&
      Spoken(DeltasOut(frames)) == [] && EndStep(State([], core)).0 == []
  {
    var hi: bytes := [0x68, 0x69];
    var p := Payload(BlockStop, Some(0), true, Some(hi), None, 0);
    var stop: Event := [Data(p, [])];
    var c := Announce(START.core, stop).1;
    assert [] + hi == hi;
    assert PushStep(FRESH, hi) == ([], Stripper(hi, false));
    assert stop[1..] == [];
    var line := RewriteLine(c, stop[0]);
    assert line == (Rewritten(WithText(p, [])), Core(Stripper(hi, false), Some(Anthropic(0)), {}));
    assert RewriteLines(c, stop) == ([line.0] + [], line.1);
    assert FirstPayload(stop) == Some(p) && c.open - {0} == {};
    assert Forget(line.1, stop) == Core(Stripper(hi, false), None, {});
    assert Flush(c) == ([], c);
    assert Transform(START.core, stop) == ([] + [] + ([line.0] + []), Core(Stripper(hi, false), None, {}));
    AppendEmpty([line.0], []);
    FlatMapOne(FrameDeltas, line.0);
    FlatMapOne(LineDeltas, stop[0]);
    FlatMapOne(DeltasIn, stop);
    SpokenOne((Anthropic(0), hi));
    SpokenOne((Anthropic(0), []));
  }
}

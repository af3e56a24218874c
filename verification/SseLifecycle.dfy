/** The Anthropic block lifecycle the client sees, over whole runs of the filter. */
module SseLifecycle {
  import opened Text
  import opened ThinkStripping
  import opened SseFilter

  /** What a frame or an upstream event does to a content block. */
  datatype Mark = Opens(index: nat) | TextIn(index: nat) | Closes(index: nat) | Neutral

  function PayloadMark(p: Payload): Mark {
    match p.kind
    case BlockStart => Opens(IndexOf(p))
    case BlockDelta => if p.textDelta then TextIn(IndexOf(p)) else Neutral
    case BlockStop => Closes(IndexOf(p))
    case _ => Neutral
  }

  function FrameMark(f: Frame): Mark {
    match f
    case StartFrame(i) => Opens(i)
    case DeltaFrame(shape, _) => if shape.Anthropic? then TextIn(shape.index) else Neutral
    case Rewritten(p) => PayloadMark(p)
    case PassedOn(line) => if line.Data? then PayloadMark(line.payload) else Neutral
    case Undecoded(_) => Neutral
  }

  function Marks(frames: seq<Frame>): seq<Mark> { Map(FrameMark, frames) }

  function EventMark(e: Event): Mark {
    if FirstPayload(e).Some? then PayloadMark(FirstPayload(e).value) else Neutral
  }

  // ----- lawful lifecycles, as a machine and as a statement about positions -----

  /** The open blocks after one mark; `None` when the mark breaks the lifecycle.
      A lenient reader opens a block at its first text. */
  function Advance(m: Mark, open: set<nat>, lenient: bool): Option<set<nat>> {
    match m
    case Opens(i) => if i in open then None else Some(open + {i})
    case TextIn(i) => if i in open || lenient then Some(open + {i}) else None
    case Closes(i) => if i in open then Some(open - {i}) else None
    case Neutral => Some(open)
  }

  function Walk(marks: seq<Mark>, open: set<nat>, lenient: bool): Option<set<nat>>
    decreases |marks|
  {
    if marks == [] then Some(open)
    else
      match Advance(marks[0], open, lenient)
      case None => None
      case Some(next) => Walk(marks[1..], next, lenient)
  }

  lemma {:induction false} WalkAppend(a: seq<Mark>, b: seq<Mark>, open: set<nat>, lenient: bool)
    ensures Walk(a + b, open, lenient) ==
      match Walk(a, open, lenient) case None => None case Some(mid) => Walk(b, mid, lenient)
    decreases |a|
  {
    if a == [] {
      assert a + b == b;
    } else {
      assert (a + b)[0] == a[0] && (a + b)[1..] == a[1..] + b;
      match Advance(a[0], open, lenient)
      case None =>
      case Some(next) => WalkAppend(a[1..], b, next, lenient);
    }
  }

  /** Block `i` was opened before position `k` and not closed since. */
  ghost predicate OpenAt(marks: seq<Mark>, k: nat, i: nat)
    requires k <= |marks|
  {
    exists j :: 0 <= j < k && marks[j] == Opens(i) && forall m :: j < m < k ==> marks[m] != Closes(i)
  }

  ghost predicate LawfulAt(marks: seq<Mark>, k: nat)
    requires k < |marks|
  {
    match marks[k]
    case Opens(i) => !OpenAt(marks, k, i)
    case TextIn(i) => OpenAt(marks, k, i)
    case Closes(i) => OpenAt(marks, k, i)
    case Neutral => true
  }

  /** Every text and every stop lies in an open block, and no block is opened twice. */
  ghost predicate Lawful(marks: seq<Mark>) {
    forall k :: 0 <= k < |marks| ==> LawfulAt(marks, k)
  }

  lemma OpenAtNext(marks: seq<Mark>, k: nat, i: nat)
    requires k < |marks|
    ensures OpenAt(marks, k + 1, i) <==> marks[k] == Opens(i) || (OpenAt(marks, k, i) && marks[k] != Closes(i))
  {
  }

  ghost predicate Agrees(marks: seq<Mark>, k: nat, open: set<nat>)
    requires k <= |marks|
  {
    forall i :: i in open <==> OpenAt(marks, k, i)
  }

  lemma {:induction false} WalkFrom(marks: seq<Mark>, k: nat, open: set<nat>)
    requires k <= |marks| && Agrees(marks, k, open)
    ensures Walk(marks[k..], open, false).Some? <==> forall n :: k <= n < |marks| ==> LawfulAt(marks, n)
    decreases |marks| - k
  {
    if k < |marks| {
      assert marks[k..][0] == marks[k] && marks[k..][1..] == marks[k + 1..];
      var next := Advance(marks[k], open, false);
      assert next.Some? <==> LawfulAt(marks, k);
      if next.Some? {
        forall i ensures i in next.value <==> OpenAt(marks, k + 1, i) {
          OpenAtNext(marks, k, i);
        }
        WalkFrom(marks, k + 1, next.value);
      }
    }
  }

  /** The machine accepts exactly the lawful sequences of marks. */
  lemma WalkIsLawful(marks: seq<Mark>)
    ensures Walk(marks, {}, false).Some? <==> Lawful(marks)
  {
    assert marks[0..] == marks;
    WalkFrom(marks, 0, {});
  }

  // ----- the filter -----

  /** One JSON data line at most, and a text delta is a `content_block_delta`. */
  predicate Orderly(e: Event) {
    (forall j, k :: 0 <= j < k < |e| ==> !(e[j].Data? && e[k].Data?)) &&
    forall line <- e :: line.Data? && DeltaOf(line.payload).Some? && DeltaOf(line.payload).value.0.Anthropic?
      ==> line.payload.kind == BlockDelta
  }

  /** The shape of a held tail is an open block's. */
  predicate Placed(c: Core) {
    c.shape.Some? && c.shape.value.Anthropic? ==> c.shape.value.index in c.open
  }

  /** The frames of an event's lines: the mark of its data line, and none else. */
  lemma {:induction false} LinesWalk(c: Core, e: Event, open: set<nat>)
    requires Orderly(e)
    ensures Walk(Marks(RewriteLines(c, e).0), open, false) == Advance(EventMark(e), open, false)
    ensures var c' := RewriteLines(c, e).1;
      c'.open == c.open &&
      (c'.shape == c.shape || c'.shape == Some(OpenAi) ||
       (OfKind(e, BlockDelta) && FirstPayload(e).value.textDelta && c'.shape == Some(Anthropic(EventIndex(e)))))
    decreases |e|
  {
    if e != [] {
      var (frame, c1) := RewriteLine(c, e[0]);
      var rest := RewriteLines(c1, e[1..]).0;
      MapCons(FrameMark, [frame] + rest);
      assert ([frame] + rest)[1..] == rest;
      assert Orderly(e[1..]) by {
        assert forall k :: 0 <= k < |e[1..]| ==> e[1..][k] == e[k + 1];
      }
      assert FrameMark(frame) == if e[0].Data? then PayloadMark(e[0].payload) else Neutral;
      if e[0].Data? {
        assert forall k :: 0 <= k < |e[1..]| ==> e[1..][k] == e[k + 1] && !e[k + 1].Data?;
        NoData(e[1..]);
        var next := Advance(FrameMark(frame), open, false);
        if next.Some? { LinesWalk(c1, e[1..], next.value); }
        QuietLines(c1, e[1..]);
      } else {
        LinesWalk(c1, e[1..], open);
      }
    }
  }

  lemma {:induction false} NoData(e: Event)
    requires forall k :: 0 <= k < |e| ==> !e[k].Data?
    ensures FirstPayload(e).None?
  {
    if e != [] { NoData(e[1..]); }
  }

  lemma {:induction false} QuietLines(c: Core, e: Event)
    requires forall k :: 0 <= k < |e| ==> !e[k].Data?
    ensures RewriteLines(c, e).1 == c
  {
    if e != [] { QuietLines(c, e[1..]); }
  }

  /** The blocks open for the client once a missing start has been announced. */
  function Announced(c: Core, e: Event): set<nat> {
    var (starts, c1) := Announce(c, e);
    if starts == [] then c.open else c1.open
  }

  lemma StartWalks(c: Core, e: Event)
    ensures Walk(Marks(Announce(c, e).0), c.open, false) == Some(Announced(c, e))
  {
    var starts := Announce(c, e).0;
    if starts != [] {
      MapOne(FrameMark, starts[0]);
      assert starts == [starts[0]];
    }
  }

  lemma TailWalks(c: Core, open: set<nat>)
    requires c.shape.Some? && c.shape.value.Anthropic? ==> c.shape.value.index in open
    ensures Walk(Marks(Flush(c).0), open, false) == Some(open)
  {
    var tail := Flush(c).0;
    if tail != [] {
      assert tail[0].shape.Anthropic? ==> open + {tail[0].shape.index} == open;
      MapOne(FrameMark, tail[0]);
      assert tail == [tail[0]];
    }
  }

  /** Everything before an event's own lines: a missing start, the held tail. */
  lemma PreludeWalks(c: Core, e: Event)
    requires Placed(c)
    ensures var (starts, c1) := Announce(c, e);
      var tail := if Releases(e) then Flush(c1).0 else [];
      Walk(Marks(starts + tail), c.open, false) == Some(Announced(c, e))
  {
    var (starts, c1) := Announce(c, e);
    var tail := if Releases(e) then Flush(c1).0 else [];
    StartWalks(c, e);
    TailWalks(c1, Announced(c, e));
    MapAppend(FrameMark, starts, tail);
    WalkAppend(Marks(starts), Marks(tail), c.open, false);
  }

  /** With missing starts announced, a strict reader goes where a lenient one does. */
  lemma AnnouncedAdvances(c: Core, e: Event)
    ensures Advance(EventMark(e), Announced(c, e), false) == Advance(EventMark(e), c.open, true)
  {
  }

  /** One event: the frames take the client exactly where the event takes a lenient reader. */
  lemma TransformWalks(c: Core, e: Event)
    requires Orderly(e) && Placed(c)
    ensures var (out, c') := Transform(c, e);
      var up := Advance(EventMark(e), c.open, true);
      Placed(c') && Walk(Marks(out), c.open, false) == up && (up.Some? ==> up.value == c'.open)
  {
    var (starts, c1) := Announce(c, e);
    var (tail, c2) := if Releases(e) then Flush(c1) else ([], c1);
    var lines := RewriteLines(c2, e).0;
    PreludeWalks(c, e);
    LinesWalk(c2, e, Announced(c, e));
    AnnouncedAdvances(c, e);
    MapAppend(FrameMark, starts + tail, lines);
    WalkAppend(Marks(starts + tail), Marks(lines), c.open, false);
    TransformOpens(c, e);
  }

  lemma TransformOpens(c: Core, e: Event)
    requires Orderly(e) && Placed(c)
    ensures var (c', up) := (Transform(c, e).1, Advance(EventMark(e), c.open, true));
      Placed(c') && (up.Some? ==> up.value == c'.open)
  {
    var c1 := Announce(c, e).1;
    LinesWalk(if Releases(e) then Flush(c1).1 else c1, e, c.open);
  }

  lemma {:induction false} RunWalks(c: Core, es: seq<Event>)
    requires Placed(c) && forall e <- es :: Orderly(e)
    ensures var (out, c') := TransformAll(c, es);
      var up := Walk(EventMarks(es), c.open, true);
      Walk(Marks(out), c.open, false) == up && (up.Some? ==> up.value == c'.open && Placed(c'))
    decreases |es|
  {
    if es != [] {
      var (out, c1) := Transform(c, es[0]);
      TransformWalks(c, es[0]);
      var rest := TransformAll(c1, es[1..]).0;
      MapCons(EventMark, es);
      MapAppend(FrameMark, out, rest);
      WalkAppend(Marks(out), Marks(rest), c.open, false);
      if Advance(EventMark(es[0]), c.open, true).Some? {
        RunWalks(c1, es[1..]);
      }
    }
  }

  function EventMarks(es: seq<Event>): seq<Mark> { Map(EventMark, es) }

  /** The upstream's only fault is that some text blocks were never announced. */
  predicate OnlyMissingStarts(es: seq<Event>) {
    Walk(EventMarks(es), {}, true).Some?
  }

  /** The client's lifecycle is lawful, from the first event to the flush at the
      end of the stream, exactly when missing starts are all that is wrong upstream. */
  lemma LifecycleRepaired(es: seq<Event>, pending: bytes)
    requires forall e <- es :: Orderly(e)
    ensures var (out, core) := TransformAll(START.core, es);
      Lawful(Marks(out + EndStep(State(pending, core)).0)) <==> OnlyMissingStarts(es)
  {
    var (out, core) := TransformAll(START.core, es);
    var end := EndStep(State(pending, core)).0;
    RunWalks(START.core, es);
    MapAppend(FrameMark, out, end);
    WalkAppend(Marks(out), Marks(end), {}, false);
    WalkIsLawful(Marks(out + end));
    if OnlyMissingStarts(es) {
      EndWalks(core, pending);
    }
  }

  lemma EndWalks(c: Core, pending: bytes)
    requires Placed(c)
    ensures Walk(Marks(EndStep(State(pending, c)).0), c.open, false) == Some(c.open)
  {
    var tail, rest := Flush(c).0, if pending == [] then [] else [Undecoded(pending)];
    TailWalks(c, c.open);
    MapAppend(FrameMark, tail, rest);
    WalkAppend(Marks(tail), Marks(rest), c.open, false);
    MapOne(FrameMark, Undecoded(pending));
  }

  /** The flush at the end of the stream opens and closes nothing, whatever came before. */
  lemma EndInventsNothing(st: State, f: Frame)
    requires f in EndStep(st).0
    ensures f.DeltaFrame? || f == Undecoded(st.pending)
  {
  }
}

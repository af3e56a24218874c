/** What the client reads of a whole run: the text between one release and the next is
    delivered, stripped as one piece, before the second release's own lines, and
    exactly the text a block stop strands is lost. */
module SseDelivery {
  import opened Text
  import opened ThinkStripping
  import opened SseFilter
  import opened SseMeaning

  /** What is said from one releasing event to the next: the event that starts it, if
      any, and the deltas from its own on. */
  datatype Passage = Passage(start: Option<Event>, ds: seq<Delta>)

  const OPENING := Passage(None, [])

  /** The passages of a run, the last one ended by the end of the stream. */
  function Passages(p: Passage, es: seq<Event>): seq<Passage>
    decreases |es|
  {
    if es == [] then [p]
    else if Releases(es[0]) then [p] + Passages(Passage(Some(es[0]), DeltasIn(es[0])), es[1..])
    else Passages(p.(ds := p.ds + DeltasIn(es[0])), es[1..])
  }

  /** What the client should read of a passage. */
  function Meant(p: Passage): bytes { StripThink(Spoken(p.ds)) }

  predicate Fitting(p: Passage) { SpansFit(Spoken(p.ds), false) }

  /** Nothing more is said of a block after the stop that carries its last text. */
  predicate Lost(p: Passage) {
    p.start.Some? && Strands(p.start.value) && p.ds == DeltasIn(p.start.value)
  }

  /** A block stop holds one data line, its text well formed. */
  predicate Readable(e: Event) {
    OfKind(e, BlockStop) ==> OneData(e) && TextsWellFormed(e)
  }

  function Shapes(ds: seq<Delta>): set<Shape> { set d <- ds :: d.0 }

  /** The frames tell the passage: the lines of its start come first, so all that was
      said before is out by then; the text is the passage's, in shapes of the passage,
      and less than meant only if the passage is lost. */
  ghost predicate Tells(frames: seq<Frame>, p: Passage) {
    (p.start.Some? ==> OwnLines(frames, p.start.value)) &&
    Labelled(DeltasOut(frames), Shapes(p.ds)) &&
    Spoken(DeltasOut(frames)) <= Meant(p) &&
    (Spoken(DeltasOut(frames)) == Meant(p) <==> !Lost(p))
  }

  ghost predicate AllTold(cut: seq<seq<Frame>>, ps: seq<Passage>) {
    |cut| == |ps| && forall k :: 0 <= k < |ps| ==> Tells(cut[k], ps[k])
  }

  // ----- where the frames of a run are cut -----

  /** The frames of a run and its end, cut before each releasing event's own lines. */
  function Readings(heard: seq<Frame>, c: Core, es: seq<Event>, pending: bytes): seq<seq<Frame>>
    decreases |es|
  {
    if es == [] then [heard + EndStep(State(pending, c)).0]
    else
      var (prelude, c1) := Prelude(c, es[0]);
      var (lines, c2) := RewriteLines(c1, es[0]);
      var next := Forget(c2, es[0]);
      if Releases(es[0]) then [heard + prelude] + Readings(lines, next, es[1..], pending)
      else Readings(heard + (prelude + lines), next, es[1..], pending)
  }

  function Delivered(c: Core, es: seq<Event>, pending: bytes): seq<Frame> {
    var (out, c') := TransformAll(c, es);
    out + EndStep(State(pending, c')).0
  }

  lemma DeliveredCons(c: Core, es: seq<Event>, pending: bytes)
    requires es != []
    ensures var (frames, next) := Transform(c, es[0]);
      Delivered(c, es, pending) == frames + Delivered(next, es[1..], pending)
  {
    var (frames, next) := Transform(c, es[0]);
    var (rest, c') := TransformAll(next, es[1..]);
    Assoc(frames, rest, EndStep(State(pending, c')).0);
  }

  lemma ConcatCons(part: seq<Frame>, parts: seq<seq<Frame>>)
    ensures Concat([part] + parts) == part + Concat(parts)
  {
    assert ([part] + parts)[1..] == parts;
  }

  /** Nothing is added or left out by cutting. */
  lemma {:induction false} ReadingsAreTheRun(heard: seq<Frame>, c: Core, es: seq<Event>, pending: bytes)
    ensures Concat(Readings(heard, c, es, pending)) == heard + Delivered(c, es, pending)
    decreases |es|
  {
    if es == [] {
      AppendEmpty(EndStep(State(pending, c)).0, []);
      ConcatOne(heard + EndStep(State(pending, c)).0);
    } else {
      var (prelude, c1) := Prelude(c, es[0]);
      var (lines, c2) := RewriteLines(c1, es[0]);
      var next := Forget(c2, es[0]);
      var rest := Delivered(next, es[1..], pending);
      DeliveredCons(c, es, pending);
      assert Transform(c, es[0]) == (prelude + lines, next);
      if Releases(es[0]) {
        ReadingsAreTheRun(lines, next, es[1..], pending);
        ConcatCons(heard + prelude, Readings(lines, next, es[1..], pending));
        Assoc(heard, prelude, lines + rest);
        Assoc(prelude, lines, rest);
      } else {
        ReadingsAreTheRun(heard + (prelude + lines), next, es[1..], pending);
        Assoc(heard, prelude + lines, rest);
      }
    }
  }

  // ----- between two events -----

  /** The stop that started the passage took its shape with it. */
  predicate Forgotten(p: Passage) {
    p.start.Some? && Forgets(p.start.value) && p.ds == DeltasIn(p.start.value)
  }

  function ShapeOf(p: Passage): Option<Shape>
    requires p.ds != []
  {
    if Forgotten(p) then None else Some(LastShape(p.ds))
  }

  /** The filter within a passage: what was heard of it, and what is held. */
  ghost predicate Hears(heard: seq<Frame>, c: Core, p: Passage) {
    (Spoken(DeltasOut(heard)), c.stripper) == PushAll(FRESH, Texts(p.ds)) &&
    Labelled(DeltasOut(heard), Shapes(p.ds)) &&
    (p.ds != [] ==> c.shape == ShapeOf(p)) &&
    (p.start.Some? ==> OwnLines(heard, p.start.value) && |DeltasIn(p.start.value)| <= |p.ds|)
  }

  lemma OwnLinesStay(heard: seq<Frame>, more: seq<Frame>, e: Event)
    requires OwnLines(heard, e)
    ensures OwnLines(heard + more, e)
  {
    assert forall j :: 0 <= j < |e| ==> (heard + more)[j] == heard[j];
  }

  lemma LabelsGrow(ds: seq<Delta>, a: seq<Delta>, b: seq<Delta>)
    requires Labelled(ds, Shapes(a))
    ensures Labelled(ds, Shapes(a + b)) && Labelled(b, Shapes(a + b))
  {
    forall d | d in a || d in b ensures d.0 in Shapes(a + b) {
      assert d in a + b;
    }
  }

  /** An event that releases nothing goes on with the passage. */
  lemma HearsOn(heard: seq<Frame>, c: Core, p: Passage, e: Event)
    requires Hears(heard, c, p) && !Releases(e)
    ensures var (frames, next) := Transform(c, e);
      Hears(heard + frames, next, p.(ds := p.ds + DeltasIn(e)))
  {
    var (frames, next) := Transform(c, e);
    var ds, shapes := DeltasIn(e), Shapes(p.ds + DeltasIn(e));
    EventFollows(c, e, shapes);
    LabelsGrow(DeltasOut(heard), p.ds, ds);
    MapAppend(TextOf, p.ds, ds);
    PushAllAppend(FRESH, Texts(p.ds), Texts(ds));
    FlatMapAppend(FrameDeltas, heard, frames);
    SpokenAppend(DeltasOut(heard), DeltasOut(frames));
    if p.start.Some? { OwnLinesStay(heard, frames, p.start.value); }
    if ds == [] {
      AppendEmpty(p.ds, ds);
    } else {
      assert (p.ds + ds)[|p.ds + ds| - 1] == ds[|ds| - 1];
    }
  }

  /** The lines of a releasing event start the next passage. */
  lemma HearsAnew(c: Core, e: Event)
    requires Releases(e)
    ensures var c1 := Prelude(c, e).1;
      var (lines, c2) := RewriteLines(c1, e);
      Hears(lines, Forget(c2, e), Passage(Some(e), DeltasIn(e)))
  {
    var c1 := Prelude(c, e).1;
    var ds := DeltasIn(e);
    PreludeReads(c, e);
    LinesFollow(c1, e, Shapes(ds));
    LinesAreOwn(c1, e);
  }

  // ----- at a release -----

  /** The held tail completes the passage, unless it has lost its shape. */
  lemma TailCompletes(heard: seq<Frame>, c: Core, p: Passage, last: seq<Frame>)
    requires Hears(heard, c, p) && Fitting(p) && DeltasOut(last) == TailDeltas(c)
    requires p.start.Some? ==> Readable(p.start.value)
    ensures Tells(heard + last, p)
  {
    var (said, held) := (Spoken(DeltasOut(heard)), c.stripper.buf);
    StreamFits(Spoken(p.ds), Texts(p.ds));
    assert said + held == Meant(p);
    FlatMapAppend(FrameDeltas, heard, last);
    SpokenAppend(DeltasOut(heard), TailDeltas(c));
    if p.start.Some? { OwnLinesStay(heard, last, p.start.value); }
    if Forgotten(p) {
      StopHolds(p.start.value);
      assert Spoken(TailDeltas(c)) == [];
      AppendEmpty(said, []);
      assert said <= said + held;
    } else {
      TailKept(c, p);
    }
  }

  lemma TailKept(c: Core, p: Passage)
    requires c.stripper == PushAll(FRESH, Texts(p.ds)).1 && !Forgotten(p) && (p.ds != [] ==> c.shape == ShapeOf(p))
    ensures Spoken(TailDeltas(c)) == c.stripper.buf && Labelled(TailDeltas(c), Shapes(p.ds))
  {
    if c.stripper.buf != [] {
      assert p.ds != [] && p.ds[|p.ds| - 1] in p.ds;
      SpokenOne((c.shape.value, c.stripper.buf));
    }
  }

  lemma EndReads(c: Core, pending: bytes)
    ensures DeltasOut(EndStep(State(pending, c)).0) == TailDeltas(c)
  {
    var tail, rest := Flush(c).0, if pending == [] then [] else [Undecoded(pending)];
    FlushReads(c);
    FlatMapAppend(FrameDeltas, tail, rest);
    FlatMapOne(FrameDeltas, Undecoded(pending));
    AppendEmpty(DeltasOut(tail), DeltasOut(rest));
  }

  // ----- whole runs -----

  lemma {:induction false} ReadingsTell(heard: seq<Frame>, c: Core, p: Passage, es: seq<Event>, pending: bytes)
    requires Hears(heard, c, p) && (p.start.Some? ==> Readable(p.start.value))
    requires (forall e <- es :: Readable(e)) && forall q <- Passages(p, es) :: Fitting(q)
    ensures AllTold(Readings(heard, c, es, pending), Passages(p, es))
    decreases |es|
  {
    if es == [] {
      EndReads(c, pending);
      assert Passages(p, es)[0] == p;
      TailCompletes(heard, c, p, EndStep(State(pending, c)).0);
    } else {
      var (prelude, c1) := Prelude(c, es[0]);
      var (lines, c2) := RewriteLines(c1, es[0]);
      var next := Forget(c2, es[0]);
      if Releases(es[0]) {
        var q := Passage(Some(es[0]), DeltasIn(es[0]));
        PreludeReads(c, es[0]);
        assert Passages(p, es)[0] == p && Passages(p, es)[1..] == Passages(q, es[1..]);
        TailCompletes(heard, c, p, prelude);
        HearsAnew(c, es[0]);
        ReadingsTell(lines, next, q, es[1..], pending);
        ToldCons(heard + prelude, p, Readings(lines, next, es[1..], pending), Passages(q, es[1..]));
      } else {
        HearsOn(heard, c, p, es[0]);
        ReadingsTell(heard + (prelude + lines), next, p.(ds := p.ds + DeltasIn(es[0])), es[1..], pending);
      }
    }
  }

  lemma ToldCons(frames: seq<Frame>, p: Passage, cut: seq<seq<Frame>>, ps: seq<Passage>)
    requires Tells(frames, p) && AllTold(cut, ps)
    ensures AllTold([frames] + cut, [p] + ps)
  {
  }

  /** The text of all the frames falls short of what was meant exactly when some passage is lost. */
  lemma {:induction false} AllText(cut: seq<seq<Frame>>, ps: seq<Passage>)
    requires AllTold(cut, ps)
    ensures var text := Spoken(DeltasOut(Concat(cut)));
      |text| <= |FlatMap(Meant, ps)| && (text == FlatMap(Meant, ps) <==> forall p <- ps :: !Lost(p))
    decreases |ps|
  {
    if ps != [] {
      var frames, rest := cut[0], cut[1..];
      AllText(rest, ps[1..]);
      FlatMapAppend(FrameDeltas, frames, Concat(rest));
      SpokenAppend(DeltasOut(frames), DeltasOut(Concat(rest)));
      assert Tells(frames, ps[0]);
      assert ps == [ps[0]] + ps[1..];
      SumOfParts(Spoken(DeltasOut(frames)), Meant(ps[0]), Spoken(DeltasOut(Concat(rest))), FlatMap(Meant, ps[1..]));
    }
  }

  lemma SumOfParts(a: bytes, a': bytes, b: bytes, b': bytes)
    requires a <= a' && |b| <= |b'|
    ensures |a + b| <= |a' + b'| && (a + b == a' + b' <==> a == a' && b == b')
  {
    if a + b == a' + b' {
      assert |a| == |a'|;
      assert (a + b)[|a|..] == b && (a' + b')[|a|..] == b';
    }
  }

  /** Every run whose passages fit, to the end of the stream: its frames fall into the
      passages, each told before the next one's first line; and all the text is
      delivered exactly when no passage is lost. */
  lemma RunMeaning(es: seq<Event>, pending: bytes)
    requires (forall e <- es :: Readable(e)) && forall p <- Passages(OPENING, es) :: Fitting(p)
    ensures var frames := Delivered(START.core, es, pending);
      (exists cut :: Concat(cut) == frames && AllTold(cut, Passages(OPENING, es))) &&
      (Spoken(DeltasOut(frames)) == FlatMap(Meant, Passages(OPENING, es)) <==>
       forall p <- Passages(OPENING, es) :: !Lost(p))
  {
    var frames, cut := Delivered(START.core, es, pending), Readings([], START.core, es, pending);
    assert Hears([], START.core, OPENING);
    ReadingsTell([], START.core, OPENING, es, pending);
    ReadingsAreTheRun([], START.core, es, pending);
    AppendEmpty(frames, []);
    AllText(cut, Passages(OPENING, es));
  }
}

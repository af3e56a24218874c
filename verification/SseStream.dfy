/** The response stream: an upstream script driven through the filter, its held
    tail flushed at the end, and an upstream error always surfaced after it. */
module SseStream {
  import opened Text
  import opened ThinkStripping
  import opened SseFilter
  import opened SseLifecycle
  import opened SseMeaning
  import opened SseDelivery

  /** One item of the upstream: bytes, or the error that ends it. No item left is a clean end. */
  datatype Upstream = Chunk(data: bytes) | Failed(error: nat)

  datatype Item = Good(frames: seq<Frame>) | Bad(error: nat)

  datatype Phase = Streaming | Erroring(error: nat) | Done

  datatype Driver = Driver(script: seq<Upstream>, state: State, phase: Phase)

  function PollStep(decode: bytes -> Event, d: Driver): (Option<Item>, Driver) {
    match d.phase
    case Done => (None, d)
    case Erroring(e) => (Some(Bad(e)), d.(phase := Done))
    case Streaming =>
      if d.script == [] then
        var (tail, state) := EndStep(d.state);
        (Some(Good(tail)), Driver([], state, Done))
      else match d.script[0]
        case Chunk(data) =>
          var (out, state) := FeedStep(decode, d.state, data);
          (Some(Good(out)), Driver(d.script[1..], state, Streaming))
        case Failed(e) =>
          var (tail, state) := EndStep(d.state);
          if tail == [] then (Some(Bad(e)), Driver(d.script[1..], state, Done))
          else (Some(Good(tail)), Driver(d.script[1..], state, Erroring(e)))
  }

  function Left(d: Driver): nat {
    match d.phase case Done => 0 case Erroring(_) => 1 case Streaming => |d.script| + 2
  }

  /** Everything a client gets by polling until the stream ends. */
  function Collect(decode: bytes -> Event, d: Driver): seq<Item>
    decreases Left(d)
  {
    var (item, d') := PollStep(decode, d);
    if item.None? then [] else [item.value] + Collect(decode, d')
  }

  /** The chunks before the first error, and that error. */
  function Received(script: seq<Upstream>): seq<bytes> {
    if script == [] || script[0].Failed? then [] else [script[0].data] + Received(script[1..])
  }

  function Ending(script: seq<Upstream>): Option<nat> {
    if script == [] then None
    else if script[0].Failed? then Some(script[0].error)
    else Ending(script[1..])
  }

  function FramesIn(items: seq<Item>): seq<Frame> {
    if items == [] then []
    else (if items[0].Good? then items[0].frames else []) + FramesIn(items[1..])
  }

  function ErrorsIn(items: seq<Item>): seq<nat> {
    if items == [] then []
    else (if items[0].Bad? then [items[0].error] else []) + ErrorsIn(items[1..])
  }

  /** All the filter delivers for a byte stream that then ends. */
  function Whole(decode: bytes -> Event, st: State, chunks: seq<bytes>): seq<Frame> {
    var (out, st') := FeedAll(decode, st, chunks);
    out + EndStep(st').0
  }

  lemma FramesCons(item: Item, items: seq<Item>)
    ensures FramesIn([item] + items) == (if item.Good? then item.frames else []) + FramesIn(items)
    ensures ErrorsIn([item] + items) == (if item.Bad? then [item.error] else []) + ErrorsIn(items)
  {
    assert ([item] + items)[1..] == items;
  }

  lemma CollectTail(decode: bytes -> Event, d: Driver)
    requires !d.phase.Streaming?
    ensures var items := Collect(decode, d);
      items == (if d.phase.Done? then [] else [Bad(d.phase.error)])
  {
    if d.phase.Erroring? {
      assert Collect(decode, d.(phase := Done)) == [];
    }
  }

  /** What a client gets from a state and a script: the frames, and the error at the end. */
  ghost predicate Gets(items: seq<Item>, frames: seq<Frame>, end: Option<nat>) {
    FramesIn(items) == frames && items != [] && (end.Some? ==> items[|items| - 1] == Bad(end.value)) &&
    ErrorsIn(items) == if end.Some? then [end.value] else []
  }

  lemma WholeCons(decode: bytes -> Event, st: State, chunk: bytes, later: seq<bytes>)
    ensures var (out, st1) := FeedStep(decode, st, chunk);
      Whole(decode, st, [chunk] + later) == out + Whole(decode, st1, later)
  {
    var (out, st1) := FeedStep(decode, st, chunk);
    var (rest, st2) := FeedAll(decode, st1, later);
    assert ([chunk] + later)[1..] == later;
    Assoc(out, rest, EndStep(st2).0);
  }

  lemma CollectEnds(decode: bytes -> Event, script: seq<Upstream>, st: State)
    requires script == [] || script[0].Failed?
    ensures Gets(Collect(decode, Driver(script, st, Streaming)), Whole(decode, st, []), Ending(script))
  {
    hide FeedStep, EndStep;
    var (item, d') := PollStep(decode, Driver(script, st, Streaming));
    FramesCons(item.value, Collect(decode, d'));
    CollectTail(decode, d');
    AppendEmpty(EndStep(st).0, []);
    if d'.phase.Erroring? {
      FramesCons(Bad(d'.phase.error), []);
      assert [Bad(d'.phase.error)] + [] == [Bad(d'.phase.error)];
    }
  }

  lemma GetsCons(frames: seq<Frame>, items: seq<Item>, rest: seq<Frame>, end: Option<nat>)
    requires Gets(items, rest, end)
    ensures Gets([Good(frames)] + items, frames + rest, end)
  {
    FramesCons(Good(frames), items);
    AppendEmpty(ErrorsIn(items), []);
  }

  lemma {:induction false} CollectStreams(decode: bytes -> Event, script: seq<Upstream>, st: State)
    ensures Gets(Collect(decode, Driver(script, st, Streaming)), Whole(decode, st, Received(script)), Ending(script))
    decreases |script|
  {
    hide Gets, Whole, FeedStep;
    if script == [] || script[0].Failed? {
      CollectEnds(decode, script, st);
    } else {
      var (out, st1) := FeedStep(decode, st, script[0].data);
      CollectStreams(decode, script[1..], st1);
      WholeCons(decode, st, script[0].data, Received(script[1..]));
      GetsCons(out, Collect(decode, Driver(script[1..], st1, Streaming)), Whole(decode, st1, Received(script[1..])),
               Ending(script[1..]));
    }
  }

  /** The truncation contract: whatever the script and its chunking, the client
      gets all the filter delivers for the bytes received before the script
      ended; an error is the last item and the only error, a clean end has none,
      and what the upstream holds after an error changes nothing. */
  lemma {:induction false} TruncationContract(decode: bytes -> Event, script: seq<Upstream>)
    ensures var items := Collect(decode, Driver(script, START, Streaming));
      var all := Concat(Received(script));
      var (out, core) := TransformAll(START.core, EventsIn(decode, all));
      FramesIn(items) == out + EndStep(State(Unframed(all), core)).0 &&
      match Ending(script)
      case Some(e) => ErrorsIn(items) == [e] && items != [] && items[|items| - 1] == Bad(e)
      case None => ErrorsIn(items) == []
  {
    var chunks := Received(script);
    CollectStreams(decode, script, START);
    assert Find(START.pending, BLANK_LINE).None?;
    ChunkIndependence(decode, START, chunks);
    AppendEmpty(Concat(chunks), START.pending);
    TakeEventsRuns(decode, Concat(chunks), START.core);
  }

  /** Nothing follows either ending: after an error item, and after the item a clean
      end yields, every poll yields nothing and changes nothing. */
  lemma DoneIsFinal(decode: bytes -> Event, d: Driver)
    ensures var (item, next) := PollStep(decode, d);
      (item.None? ==> next == d) &&
      (item.None? || item.value.Bad? || (d.phase.Streaming? && d.script == []) ==>
        PollStep(decode, next) == (None, next) && Collect(decode, next) == [])
  {
  }

  /** The same for the block lifecycle: the client's is lawful, error or not,
      exactly when missing starts are all that is wrong in the events received. */
  lemma StreamLifecycle(decode: bytes -> Event, script: seq<Upstream>)
    requires forall e <- EventsIn(decode, Concat(Received(script))) :: Orderly(e)
    ensures var items := Collect(decode, Driver(script, START, Streaming));
      Lawful(Marks(FramesIn(items))) <==> OnlyMissingStarts(EventsIn(decode, Concat(Received(script))))
  {
    var all := Concat(Received(script));
    TruncationContract(decode, script);
    LifecycleRepaired(EventsIn(decode, all), Unframed(all));
  }

  /** And for the text: whatever the script and its chunking, and whether it ends in an
      error or not, the passages received are told in order, each before the next one's
      first line, and all their text is delivered exactly when no passage is lost. */
  lemma StreamMeaning(decode: bytes -> Event, script: seq<Upstream>)
    requires var es := EventsIn(decode, Concat(Received(script)));
      (forall e <- es :: Readable(e)) && forall p <- Passages(OPENING, es) :: Fitting(p)
    ensures var frames := FramesIn(Collect(decode, Driver(script, START, Streaming)));
      var ps := Passages(OPENING, EventsIn(decode, Concat(Received(script))));
      (exists cut :: Concat(cut) == frames && AllTold(cut, ps)) &&
      (Spoken(DeltasOut(frames)) == FlatMap(Meant, ps) <==> forall p <- ps :: !Lost(p))
  {
    var all := Concat(Received(script));
    TruncationContract(decode, script);
    RunMeaning(EventsIn(decode, all), Unframed(all));
  }

  /** The stream the client polls. */
  class ThinkStream {
    var script: seq<Upstream>
    const filter: SseThinkFilter
    var phase: Phase

    ghost function State(): Driver
      reads this, filter, filter.stripper
    {
      Driver(script, filter.FilterState(), phase)
    }

    constructor (decode: bytes -> Event, script: seq<Upstream>)
      requires forall raw :: TextsWellFormed(decode(raw))
      ensures filter.Valid() && filter.decode == decode && State() == Driver(script, START, Streaming)
    {
      this.script := script;
      filter := new SseThinkFilter(decode);
      phase := Streaming;
    }

    method Poll() returns (item: Option<Item>)
      requires filter.Valid()
      modifies this, filter, filter.stripper
      ensures filter.Valid()
      ensures (item, State()) == PollStep(filter.decode, old(State()))
    {
      match phase {
        case Done => item := None;
        case Erroring(e) =>
          item := Some(Bad(e));
          phase := Done;
        case Streaming =>
          if script == [] {
            var tail := filter.Finish();
            item := Some(Good(tail));
            phase := Done;
          } else {
            var next := script[0];
            script := script[1..];
            match next {
              case Chunk(data) =>
                var out := filter.Push(data);
                item := Some(Good(out));
              case Failed(e) =>
                var tail := filter.Finish();
                if tail == [] {
                  item := Some(Bad(e));
                  phase := Done;
                } else {
                  item := Some(Good(tail));
                  phase := Erroring(e);
                }
            }
          }
      }
    }
  }
}

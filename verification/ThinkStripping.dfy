/** The `<think>` stripper: the one-shot function, the incremental machine, and
    why the second refines the first on texts whose spans fit the bailout. */
module ThinkStripping {
  import opened Text

  const OPEN: bytes := [0x3C, 0x74, 0x68, 0x69, 0x6E, 0x6B, 0x3E]          // <think>
  const CLOSE: bytes := [0x3C, 0x2F, 0x74, 0x68, 0x69, 0x6E, 0x6B, 0x3E]   // </think>
  const HOLDBACK: nat := 7
  const THINK_BAILOUT: nat := 32 * 1024

  // ----- one shot -----

  /** The visible part of a text that starts outside or inside a span. */
  function Visible(s: bytes, inSpan: bool): bytes
    decreases |s|
  {
    if inSpan then
      match Find(s, CLOSE)
      case None => s
      case Some(c) => Visible(s[c + |CLOSE|..], false)
    else
      match Find(s, OPEN)
      case None => s
      case Some(o) => s[..o] + Visible(s[o + |OPEN|..], true)
  }

  function StripThink(s: bytes): bytes {
    Visible(s, false)
  }

  method StripThinkOneShot(input: bytes) returns (out: bytes)
    ensures out == StripThink(input)
  {
    out := [];
    var rest := input;
    while true
      invariant out + StripThink(rest) == StripThink(input)
      decreases |rest|
    {
      match Find(rest, OPEN) {
        case None =>
          return out + rest;
        case Some(o) =>
          assert out + Visible(rest, false) == (out + rest[..o]) + Visible(rest[o + |OPEN|..], true);
          out := out + rest[..o];
          var after := rest[o + |OPEN|..];
          match Find(after, CLOSE) {
            case None => return out + after;
            case Some(c) => rest := after[c + |CLOSE|..];
          }
      }
    }
  }

  // ----- the incremental machine -----

  datatype Stripper = Stripper(buf: bytes, inThink: bool)

  const FRESH := Stripper([], false)

  /** First byte that must stay buffered: at most HOLDBACK bytes from the end,
      moved forward off the continuation bytes of a character. */
  function HoldbackStart(buf: bytes): (k: nat)
    ensures k <= |buf| && |buf| - k <= HOLDBACK
    ensures |buf| <= HOLDBACK ==> k == 0
    ensures forall j :: 0 <= j < k && |buf| - HOLDBACK <= j ==> Continuation(buf[j])
    ensures Boundary(buf, k)
  {
    if |buf| <= HOLDBACK then 0 else SkipContinuation(buf, |buf| - HOLDBACK)
  }

  function SkipContinuation(buf: bytes, i: nat): (k: nat)
    requires i <= |buf|
    ensures i <= k <= |buf| && Boundary(buf, k)
    ensures forall j :: i <= j < k ==> Continuation(buf[j])
    decreases |buf| - i
  {
    if i < |buf| && !Boundary(buf, i) then SkipContinuation(buf, i + 1) else i
  }

  /** The `push` loop: what it emits and the state it stops in. */
  function Drain(st: Stripper): (bytes, Stripper)
    decreases |st.buf|
  {
    if st.inThink then
      match Find(st.buf, CLOSE)
      case Some(j) => Drain(Stripper(st.buf[j + |CLOSE|..], false))
      case None =>
        if |st.buf| > THINK_BAILOUT then (st.buf, FRESH) else ([], st)
    else
      match Find(st.buf, OPEN)
      case Some(i) =>
        var (out, st') := Drain(Stripper(st.buf[i + |OPEN|..], true));
        (st.buf[..i] + out, st')
      case None =>
        var keep := HoldbackStart(st.buf);
        (st.buf[..keep], Stripper(st.buf[keep..], false))
  }

  function PushStep(st: Stripper, chunk: bytes): (bytes, Stripper) {
    Drain(Stripper(st.buf + chunk, st.inThink))
  }

  function PushAll(st: Stripper, chunks: seq<bytes>): (bytes, Stripper)
    decreases |chunks|
  {
    if chunks == [] then ([], st)
    else
      var (out, st1) := PushStep(st, chunks[0]);
      var (rest, st2) := PushAll(st1, chunks[1..]);
      (out + rest, st2)
  }

  function FinishStep(st: Stripper): (bytes, Stripper) {
    (st.buf, FRESH)
  }

  /** Everything a stream delivers: each push, then the flush at its end. */
  function Stream(st: Stripper, chunks: seq<bytes>): bytes {
    PushAll(st, chunks).0 + PushAll(st, chunks).1.buf
  }

  // ----- meaning of a state, given the text still to come -----

  function Meaning(st: Stripper, future: bytes): bytes {
    Visible(st.buf + future, st.inThink)
  }

  /** Every closed span fits the bailout even when all but the last byte of its
      closing tag is buffered with it; an unclosed one holds no opening tag past
      the shortest buffer that bails out. */
  predicate SpansFit(s: bytes, inSpan: bool)
    decreases |s|
  {
    if inSpan then
      match Find(s, CLOSE)
      case None => |s| <= THINK_BAILOUT || Find(s[THINK_BAILOUT + 1..], OPEN).None?
      case Some(c) => c + |CLOSE| - 1 <= THINK_BAILOUT && SpansFit(s[c + |CLOSE|..], false)
    else
      match Find(s, OPEN)
      case None => true
      case Some(o) => SpansFit(s[o + |OPEN|..], true)
  }

  predicate Fits(st: Stripper, future: bytes) {
    SpansFit(st.buf + future, st.inThink)
  }

  // ----- bounds between pushes -----

  /** What is buffered between pushes. */
  predicate Settled(st: Stripper) {
    if st.inThink then |st.buf| <= THINK_BAILOUT && Find(st.buf, CLOSE).None?
    else |st.buf| <= HOLDBACK && Find(st.buf, OPEN).None?
  }

  lemma {:induction false} DrainSettles(st: Stripper)
    ensures Settled(Drain(st).1)
    decreases |st.buf|
  {
    if st.inThink {
      match Find(st.buf, CLOSE)
      case Some(j) => DrainSettles(Stripper(st.buf[j + |CLOSE|..], false));
      case None =>
    } else {
      match Find(st.buf, OPEN)
      case Some(i) => DrainSettles(Stripper(st.buf[i + |OPEN|..], true));
      case None =>
        var keep := HoldbackStart(st.buf);
        assert st.buf[keep..] == st.buf[keep..|st.buf|];
        NotInSlice(st.buf, OPEN, keep, |st.buf|);
    }
  }

  // ----- refinement -----

  /** A tag completed in the buffer is the next tag whatever follows. */
  lemma TagStable(s: bytes, t: bytes, tag: bytes, i: nat)
    requires Find(s, tag) == Some(i)
    ensures Find(s + t, tag) == Some(i)
    ensures (s + t)[..i] == s[..i] && (s + t)[i + |tag|..] == s[i + |tag|..] + t
  {
    FindStable(s, t, tag);
  }

  /** No opening tag can start in the released part of a buffer without one. */
  lemma ReleasedHoldsNoTag(buf: bytes, future: bytes, k: int)
    requires Find(buf, OPEN).None?
    requires k < HoldbackStart(buf)
    ensures !At(buf + future, OPEN, k)
  {
    if k + |OPEN| <= |buf| {
      AtPrefix(buf, future, OPEN, k);
      FindFirst(buf, OPEN);
    } else if 0 <= k {
      assert Continuation(buf[k]);
      AtByte(buf + future, OPEN, k, 0);
    }
  }

  lemma StripShift(s: bytes, t: bytes)
    requires forall k :: k < |s| ==> !At(s + t, OPEN, k)
    ensures Visible(s + t, false) == s + Visible(t, false)
    ensures SpansFit(s + t, false) == SpansFit(t, false)
  {
    FindShift(s, t, OPEN);
    if Find(t, OPEN).Some? {
      var o := Find(t, OPEN).value;
      assert (s + t)[..|s| + o] == s + t[..o];
      assert (s + t)[|s| + o + |OPEN|..] == t[o + |OPEN|..];
    }
  }

  /** One drain keeps the meaning of everything still to be delivered. */
  lemma {:induction false} DrainKeepsMeaning(st: Stripper, future: bytes)
    requires Fits(st, future)
    ensures var (out, st') := Drain(st);
      out + Meaning(st', future) == Meaning(st, future) && Fits(st', future)
    decreases |st.buf|
  {
    if st.inThink {
      match Find(st.buf, CLOSE)
      case Some(j) =>
        TagStable(st.buf, future, CLOSE, j);
        DrainKeepsMeaning(Stripper(st.buf[j + |CLOSE|..], false), future);
      case None =>
        if |st.buf| > THINK_BAILOUT {
          BailoutKeepsMeaning(st.buf, future);
          assert [] + future == future;
        }
    } else {
      match Find(st.buf, OPEN)
      case Some(i) =>
        TagStable(st.buf, future, OPEN, i);
        var inner := Stripper(st.buf[i + |OPEN|..], true);
        DrainKeepsMeaning(inner, future);
        var (out, st') := Drain(inner);
        assert st.buf[..i] + (out + Meaning(st', future)) == (st.buf[..i] + out) + Meaning(st', future);
      case None =>
        var keep := HoldbackStart(st.buf);
        assert st.buf + future == st.buf[..keep] + (st.buf[keep..] + future);
        forall k | k < keep ensures !At(st.buf + future, OPEN, k) {
          ReleasedHoldsNoTag(st.buf, future, k);
        }
        StripShift(st.buf[..keep], st.buf[keep..] + future);
    }
  }

  lemma {:induction false} BailoutKeepsMeaning(buf: bytes, future: bytes)
    requires Find(buf, CLOSE).None? && |buf| > THINK_BAILOUT
    requires SpansFit(buf + future, true)
    ensures Visible(buf + future, true) == buf + Visible(future, false) && SpansFit(future, false)
  {
    FindFirst(buf, CLOSE);
    FindFirst(buf + future, CLOSE);
    if Find(buf + future, CLOSE).Some? {
      var c := Find(buf + future, CLOSE).value;
      AtPrefix(buf, future, CLOSE, c);
      assert false;
    }
    var tail := (buf + future)[THINK_BAILOUT + 1..];
    assert tail[|buf| - THINK_BAILOUT - 1..|tail|] == future;
    NotInSlice(tail, OPEN, |buf| - THINK_BAILOUT - 1, |tail|);
    assert Find(future, OPEN).None?;
  }

  /** The last push of a stream, then the flush, deliver exactly the meaning of the state: no bound is needed. */
  lemma {:induction false} DrainThenFinish(st: Stripper)
    ensures var (out, st') := Drain(st); out + st'.buf == Meaning(st, [])
    decreases |st.buf|
  {
    assert st.buf + [] == st.buf;
    if st.inThink {
      match Find(st.buf, CLOSE)
      case Some(j) =>
        var next := Stripper(st.buf[j + |CLOSE|..], false);
        assert next.buf + [] == next.buf;
        DrainThenFinish(next);
      case None =>
    } else {
      match Find(st.buf, OPEN)
      case Some(i) =>
        var next := Stripper(st.buf[i + |OPEN|..], true);
        assert next.buf + [] == next.buf;
        DrainThenFinish(next);
      case None =>
    }
  }

  /** A stream of one chunk is never cut short, whatever its spans. */
  lemma OneChunk(st: Stripper, chunk: bytes)
    ensures Stream(st, [chunk]) == Meaning(st, chunk)
  {
    var joined := Stripper(st.buf + chunk, st.inThink);
    DrainThenFinish(joined);
    assert joined.buf + [] == joined.buf;
    StreamCons(st, [chunk]);
  }

  lemma StreamCons(st: Stripper, chunks: seq<bytes>)
    requires chunks != []
    ensures var (out, st') := PushStep(st, chunks[0]); Stream(st, chunks) == out + Stream(st', chunks[1..])
  {
    var (out, st1) := PushStep(st, chunks[0]);
    var (rest, st2) := PushAll(st1, chunks[1..]);
    assert (out + rest) + st2.buf == out + (rest + st2.buf);
  }

  lemma {:induction false} StreamMeans(st: Stripper, chunks: seq<bytes>)
    requires Settled(st) && Fits(st, Concat(chunks))
    ensures Stream(st, chunks) == Meaning(st, Concat(chunks))
    decreases |chunks|
  {
    if chunks == [] {
      assert st.buf + [] == st.buf;
    } else {
      var joined := Stripper(st.buf + chunks[0], st.inThink);
      var rest := Concat(chunks[1..]);
      assert st.buf + Concat(chunks) == joined.buf + rest;
      DrainKeepsMeaning(joined, rest);
      DrainSettles(joined);
      StreamMeans(Drain(joined).1, chunks[1..]);
      StreamCons(st, chunks);
    }
  }

  /** For texts that fit, any cutting will do, even inside characters. */
  lemma StreamFits(s: bytes, chunks: seq<bytes>)
    requires SpansFit(s, false) && Concat(chunks) == s
    ensures Stream(FRESH, chunks) == StripThink(s)
  {
    assert FRESH.buf + s == s;
    StreamMeans(FRESH, chunks);
  }
}

/** The stripper as the object the proxy holds, proved against `ThinkStripping`. */
module StripperMachine {
  import opened Text
  import opened ThinkStripping

  // ----- UTF-8: no cut falls inside a character -----

  lemma TagOnBoundaries(s: bytes, tag: bytes, i: nat)
    requires Utf8(s) && tag in {OPEN, CLOSE} && Find(s, tag) == Some(i)
    ensures Boundary(s, i) && Boundary(s, i + |tag|)
  {
    FindFirst(s, tag);
    AtByte(s, tag, i, 0);
    AtByte(s, tag, i, |tag| - 1);
    AsciiBoundary(s, i);
    AsciiBoundary(s, i + |tag| - 1);
  }

  /** A tag cuts well-formed text into well-formed halves. */
  lemma TagCuts(s: bytes, tag: bytes, i: nat)
    requires Utf8(s) && tag in {OPEN, CLOSE} && Find(s, tag) == Some(i)
    ensures Boundary(s, i) && Boundary(s, i + |tag|)
    ensures Utf8(s[..i]) && Utf8(s[i + |tag|..])
  {
    hide Utf8, Boundary;
    TagOnBoundaries(s, tag, i);
    Utf8Split(s, i);
    Utf8Split(s, i + |tag|);
  }

  /** `&s[..k]`, which panics off a character boundary. */
  function Before(s: bytes, k: nat): (r: bytes)
    requires Boundary(s, k)
    ensures r == s[..k]
  {
    s[..k]
  }

  /** What `s.drain(..k)` leaves. */
  function After(s: bytes, k: nat): (r: bytes)
    requires Boundary(s, k)
    ensures r == s[k..]
  {
    s[k..]
  }

  lemma DrainTag(st: Stripper, i: nat)
    requires Find(st.buf, if st.inThink then CLOSE else OPEN) == Some(i)
    ensures var tag := if st.inThink then CLOSE else OPEN;
      var next := Drain(Stripper(st.buf[i + |tag|..], !st.inThink));
      Drain(st) == (if st.inThink then next.0 else st.buf[..i] + next.0, next.1)
  {
  }

  /** After a bailout the loop finds nothing more to do. */
  lemma DrainAfterBailout(st: Stripper, empty: Stripper)
    requires st.inThink && Find(st.buf, CLOSE).None? && |st.buf| > THINK_BAILOUT
    requires |empty.buf| == 0 && !empty.inThink
    ensures Drain(st) == (st.buf + Drain(empty).0, Drain(empty).1)
  {
    assert |Drain(empty).0| == 0 && Drain(empty).1 == empty;
    AppendEmpty(st.buf, Drain(empty).0);
  }

  class ThinkStripper {
    var buf: bytes
    var inThink: bool

    ghost function State(): Stripper
      reads this
    {
      Stripper(buf, inThink)
    }

    ghost predicate Valid()
      reads this
    {
      Utf8(buf) && Settled(State())
    }

    constructor ()
      ensures Valid() && State() == FRESH
    {
      buf, inThink := [], false;
    }

    method HoldbackIndex() returns (idx: nat)
      ensures idx == HoldbackStart(buf)
    {
      if |buf| <= HOLDBACK {
        return 0;
      }
      idx := |buf| - HOLDBACK;
      while idx < |buf| && !Boundary(buf, idx)
        invariant idx <= |buf|
        invariant SkipContinuation(buf, idx) == HoldbackStart(buf)
      {
        idx := idx + 1;
      }
    }

    method EmitSafePrefix() returns (emitted: bytes)
      requires Utf8(buf)
      modifies this`buf
      ensures emitted == old(buf)[..HoldbackStart(old(buf))]
      ensures buf == old(buf)[HoldbackStart(old(buf))..]
      ensures Utf8(emitted) && Utf8(buf)
    {
      var keep := HoldbackIndex();
      Utf8Split(buf, keep);
      emitted := Before(buf, keep);
      buf := After(buf, keep);
    }

    /** Drops the span up to and with its closing tag. */
    method CloseSpan(j: nat)
      requires Utf8(buf) && inThink && Find(buf, CLOSE) == Some(j)
      modifies this
      ensures Utf8(buf) && |buf| < |old(buf)| && Drain(State()) == Drain(old(State()))
    {
      hide Utf8, Boundary, Drain;
      TagCuts(buf, CLOSE, j);
      DrainTag(State(), j);
      buf := After(buf, j + |CLOSE|);
      inThink := false;
    }

    /** Releases the text before an opening tag and enters its span. */
    method OpenSpan(i: nat) returns (visible: bytes)
      requires Utf8(buf) && !inThink && Find(buf, OPEN) == Some(i)
      modifies this
      ensures Utf8(buf) && Utf8(visible) && |buf| < |old(buf)|
      ensures Drain(old(State())) == (visible + Drain(State()).0, Drain(State()).1)
    {
      hide Utf8, Boundary, Drain;
      TagCuts(buf, OPEN, i);
      DrainTag(State(), i);
      visible := Before(buf, i);
      buf := After(buf, i + |OPEN|);
      inThink := true;
    }

    /** Gives up on a span that never closed: all of it becomes visible. */
    method Bail() returns (visible: bytes)
      requires Utf8(buf) && inThink && Find(buf, CLOSE).None? && |buf| > THINK_BAILOUT
      modifies this
      ensures Utf8(visible) && |buf| == 0 && !inThink
      ensures Drain(old(State())) == (visible + Drain(State()).0, Drain(State()).1)
    {
      ghost var before := State();
      visible := buf;
      buf := [];
      inThink := false;
      DrainAfterBailout(before, State());
    }

    /** One turn of the push loop; the last one leaves the state it stops in. */
    method Turn() returns (visible: bytes, last: bool)
      requires Utf8(buf)
      modifies this
      ensures Utf8(buf) && Utf8(visible)
      ensures last ==> Drain(old(State())) == (visible, State())
      ensures !last ==> |buf| < |old(buf)|
      ensures !last ==> Drain(old(State())) == (visible + Drain(State()).0, Drain(State()).1)
    {
      last := false;
      if inThink {
        match Find(buf, CLOSE) {
          case Some(j) =>
            CloseSpan(j);
            visible := [];
            AppendEmpty(Drain(State()).0, visible);
          case None =>
            if |buf| > THINK_BAILOUT {
              visible := Bail();
            } else {
              visible, last := [], true;
            }
        }
      } else {
        match Find(buf, OPEN) {
          case Some(i) => visible := OpenSpan(i);
          case None =>
            visible := EmitSafePrefix();
            last := true;
        }
      }
    }

    /** Feeds a chunk: emits and keeps what `PushStep` says, cutting only between characters. */
    method Push(chunk: bytes) returns (out: bytes)
      requires Valid() && Utf8(chunk)
      modifies this
      ensures Valid() && Utf8(out)
      ensures (out, State()) == PushStep(old(State()), chunk)
    {
      Utf8Concat(buf, chunk);
      buf := buf + chunk;
      ghost var start := State();
      DrainSettles(start);
      out := [];
      var last := false;
      AppendEmpty(Drain(start).0, out);
      while !last
        invariant Utf8(buf) && Utf8(out)
        invariant last ==> Drain(start) == (out, State())
        invariant !last ==> Drain(start) == (out + Drain(State()).0, Drain(State()).1)
        decreases !last, |buf|
      {
        var visible;
        visible, last := Turn();
        Utf8Concat(out, visible);
        Assoc(out, visible, Drain(State()).0);
        out := out + visible;
      }
    }

    method Finish() returns (tail: bytes)
      requires Valid()
      modifies this
      ensures Valid() && Utf8(tail)
      ensures (tail, State()) == FinishStep(old(State()))
    {
      inThink := false;
      tail := buf;
      buf := [];
    }
  }
}

/** The bound under which the incremental stripper refines the one-shot function is
    exact: past it some way of cutting the text into strings shows a difference. */
module StripperBound {
  import opened Text
  import opened ThinkStripping
  import opened StripperMachine

  /** The cut inside a closed span: the tag's last byte arrives too late and shows. */
  lemma ClosedTailDiffers(s: bytes, c: nat)
    requires Find(s, CLOSE) == Some(c)
    ensures |s[..c + 7] + StripThink(s[c + 7..])| > |Visible(s, true)|
  {
    hide SpansFit, Utf8;
    var last, rest := s[c + 7..c + 8], s[c + 8..];
    FindFirst(s, CLOSE);
    AtByte(s, CLOSE, c, 7);
    assert s[c + 7..] == last + rest;
    assert Visible(s, true) == Visible(rest, false);
    LoneByte(last, rest);
  }

  /** A byte that begins no tag is shown. */
  lemma LoneByte(last: bytes, rest: bytes)
    requires |last| == 1 && last[0] != OPEN[0]
    ensures |Visible(last + rest, false)| == 1 + |Visible(rest, false)|
  {
    hide SpansFit, Utf8;
    AtByte(last + rest, OPEN, 0, 0);
    StripShift(last, rest);
  }

  /** The cut inside an unclosed span: a later opening tag is taken for one. */
  lemma UnclosedTailDiffers(s: bytes, k: nat)
    requires k <= |s| && Find(s, CLOSE).None? && Find(s[k..], OPEN).Some?
    ensures |s[..k] + StripThink(s[k..])| < |Visible(s, true)|
  {
    var b := s[k..];
    var o := Find(b, OPEN).value;
    var after := b[o + |OPEN|..];
    assert after == s[k + o + |OPEN|..|s|];
    NotInSlice(s, CLOSE, k + o + |OPEN|, |s|);
    assert Visible(b, false) == b[..o] + after;
  }

  /** `k` cuts the text where the first push gives up on a span, and the rest
      then makes the stream deliver something else. */
  ghost predicate Diverges(s: bytes, inSpan: bool, k: nat) {
    k <= |s| &&
    var (out, st) := Drain(Stripper(s[..k], inSpan));
    st == FRESH && |out| + |StripThink(s[k..])| != |Visible(s, inSpan)|
  }

  /** An opening tag past a byte is past the next boundary. */
  lemma TagPastBoundary(s: bytes, i: nat)
    requires i <= |s| && Find(s[i..], OPEN).Some?
    ensures Find(s[SkipContinuation(s, i)..], OPEN).Some?
  {
    var k := SkipContinuation(s, i);
    var o := Find(s[i..], OPEN).value;
    FindFirst(s[i..], OPEN);
    AtByte(s[i..], OPEN, o, 0);
    assert s[i..][o] == s[i + o];
    assert s[i..] == s[i..k] + s[k..];
    AtSuffix(s[i..k], s[k..], OPEN, o);
    FindFirst(s[k..], OPEN);
  }

  /** The cut after the first character that makes an unclosed span too long. */
  lemma UnclosedDiverges(s: bytes)
    requires Find(s, CLOSE).None? && |s| > THINK_BAILOUT && Find(s[THINK_BAILOUT + 1..], OPEN).Some?
    ensures Diverges(s, true, SkipContinuation(s, THINK_BAILOUT + 1))
  {
    var k := SkipContinuation(s, THINK_BAILOUT + 1);
    FindNotInTake(s, k, CLOSE);
    TagPastBoundary(s, THINK_BAILOUT + 1);
    UnclosedTailDiffers(s, k);
  }

  /** The cut before the last byte of a closing tag that comes too late. */
  lemma ClosedDiverges(s: bytes, c: nat)
    requires Find(s, CLOSE) == Some(c) && c + |CLOSE| - 1 > THINK_BAILOUT
    ensures Diverges(s, true, c + 7)
  {
    FindNotInTake(s, c + 7, CLOSE);
    ClosedTailDiffers(s, c);
  }

  lemma InsideTag(s: bytes, c: nat)
    requires Utf8(s) && Find(s, CLOSE) == Some(c)
    ensures Boundary(s, c + 7)
  {
    FindFirst(s, CLOSE);
    AtByte(s, CLOSE, c, 7);
    AsciiBoundary(s, c + 7);
  }

  lemma DivergesPastClose(s: bytes, c: nat, n: nat)
    requires Find(s, CLOSE) == Some(c) && Diverges(s[c + |CLOSE|..], false, n)
    ensures Diverges(s, true, c + |CLOSE| + n)
  {
    hide SpansFit, Utf8;
    var next, k := s[c + |CLOSE|..], c + |CLOSE| + n;
    FindInTake(s, k, CLOSE);
    assert s[..k][c + |CLOSE|..] == next[..n] && s[k..] == next[n..];
    assert Drain(Stripper(s[..k], true)) == Drain(Stripper(next[..n], false));
    assert Visible(s, true) == Visible(next, false);
  }

  lemma DivergesPastOpen(s: bytes, o: nat, n: nat)
    requires Find(s, OPEN) == Some(o) && Diverges(s[o + |OPEN|..], true, n)
    ensures Diverges(s, false, o + |OPEN| + n)
  {
    hide SpansFit, Utf8;
    var next, k := s[o + |OPEN|..], o + |OPEN| + n;
    FindInTake(s, k, OPEN);
    assert s[..k][o + |OPEN|..] == next[..n] && s[k..] == next[n..] && s[..k][..o] == s[..o];
    var (out, st) := Drain(Stripper(next[..n], true));
    assert Drain(Stripper(s[..k], false)) == (s[..o] + out, st);
    assert Visible(s, false) == s[..o] + Visible(next, true);
  }

  lemma BoundaryAfter(s: bytes, i: nat, n: nat)
    requires i <= |s| && Boundary(s, i) && Boundary(s[i..], n)
    ensures Boundary(s, i + n)
  {
  }

  function NextTag(inSpan: bool): bytes { if inSpan then CLOSE else OPEN }

  /** Where the first span that does not fit is. */
  lemma UnfitCases(s: bytes, inSpan: bool)
    requires !SpansFit(s, inSpan)
    ensures match Find(s, NextTag(inSpan))
      case None => inSpan && |s| > THINK_BAILOUT && Find(s[THINK_BAILOUT + 1..], OPEN).Some?
      case Some(i) =>
        (inSpan && i + |CLOSE| - 1 > THINK_BAILOUT) || !SpansFit(s[i + |NextTag(inSpan)|..], !inSpan)
  {
  }

  /** A text whose spans do not fit has a cut between characters that shows it. */
  lemma {:induction false} SomeCutDiverges(s: bytes, inSpan: bool) returns (k: nat)
    requires Utf8(s) && !SpansFit(s, inSpan)
    ensures Boundary(s, k) && Diverges(s, inSpan, k)
    decreases |s|
  {
    hide Diverges, Utf8, Boundary, SpansFit;
    UnfitCases(s, inSpan);
    var tag := NextTag(inSpan);
    match Find(s, tag)
    case None =>
      k := SkipContinuation(s, THINK_BAILOUT + 1);
      UnclosedDiverges(s);
    case Some(i) =>
      if inSpan && i + |CLOSE| - 1 > THINK_BAILOUT {
        k := i + 7;
        InsideTag(s, i);
        ClosedDiverges(s, i);
      } else {
        TagCuts(s, tag, i);
        var n := SomeCutDiverges(s[i + |tag|..], !inSpan);
        k := i + |tag| + n;
        BoundaryAfter(s, i + |tag|, n);
        if inSpan { DivergesPastClose(s, i, n); } else { DivergesPastOpen(s, i, n); }
      }
  }

  lemma TwoChunks(a: bytes, b: bytes)
    requires Drain(Stripper(a, false)).1 == FRESH
    ensures Concat([a, b]) == a + b
    ensures Stream(FRESH, [a, b]) == Drain(Stripper(a, false)).0 + StripThink(b)
  {
    assert [] + a == a && [] + b == b;
    assert [a, b][1..] == [b];
    ConcatAppend([a], [b]);
    assert [a] + [b] == [a, b];
    StreamCons(FRESH, [a, b]);
    OneChunk(FRESH, b);
  }

  /** The chunks a string can arrive in: strings themselves. */
  ghost predicate CutOf(chunks: seq<bytes>, s: bytes) {
    Concat(chunks) == s && forall chunk <- chunks :: Utf8(chunk)
  }

  lemma DivergingSplit(s: bytes, k: nat)
    requires Diverges(s, false, k)
    ensures Concat([s[..k], s[k..]]) == s
    ensures |Stream(FRESH, [s[..k], s[k..]])| != |StripThink(s)|
  {
    TwoChunks(s[..k], s[k..]);
    assert s == s[..k] + s[k..];
  }

  lemma StreamDiverges(s: bytes)
    requires Utf8(s) && !SpansFit(s, false)
    ensures exists chunks: seq<bytes> :: CutOf(chunks, s) && Stream(FRESH, chunks) != StripThink(s)
  {
    hide Diverges, SpansFit;
    var k := SomeCutDiverges(s, false);
    DivergingSplit(s, k);
    Utf8Split(s, k);
    assert CutOf([s[..k], s[k..]], s);
  }

  /** The machine delivers a string's one-shot text for every way of cutting it
      into strings, exactly when its spans fit the bailout. */
  lemma StreamingRefinesOneShot(s: bytes)
    requires Utf8(s)
    ensures SpansFit(s, false)
       <==> forall chunks: seq<bytes> :: CutOf(chunks, s) ==> Stream(FRESH, chunks) == StripThink(s)
  {
    if SpansFit(s, false) {
      forall chunks: seq<bytes> | CutOf(chunks, s) ensures Stream(FRESH, chunks) == StripThink(s) {
        StreamFits(s, chunks);
      }
    } else {
      StreamDiverges(s);
    }
  }
}

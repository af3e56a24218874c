/** What the stripper's output means, told without its algorithm: the one-shot
    text is what a parsed document shows, and the incremental machine keeps a
    ledger in which every input byte appears. */
module StripperLedger {
  import opened Text
  import opened ThinkStripping
  import opened StripperMachine

  // ----- the one-shot text has an independent reading -----

  /** A text as its reader sees it: plain text, or plain text, a span and the rest. */
  datatype Doc =
    | Plain(text: bytes)
    | Unclosed(text: bytes, span: bytes)
    | Spanned(text: bytes, span: bytes, rest: Doc)

  function Render(d: Doc): bytes {
    match d
    case Plain(t) => t
    case Unclosed(t, u) => t + (OPEN + u)
    case Spanned(t, h, rest) => t + (OPEN + (h + (CLOSE + Render(rest))))
  }

  function Shown(d: Doc): bytes {
    match d
    case Plain(t) => t
    case Unclosed(t, u) => t + u
    case Spanned(t, _, rest) => t + Shown(rest)
  }

  /** Each tag is the first of its kind where it is looked for. */
  predicate Proper(d: Doc) {
    match d
    case Plain(t) => Find(t, OPEN).None?
    case Unclosed(t, u) => Find(t + OPEN, OPEN) == Some(|t|) && Find(u, CLOSE).None?
    case Spanned(t, h, rest) =>
      Find(t + OPEN, OPEN) == Some(|t|) && Find(h + CLOSE, CLOSE) == Some(|h|) && Proper(rest)
  }

  function Parse(s: bytes): Doc
    decreases |s|
  {
    match Find(s, OPEN)
    case None => Plain(s)
    case Some(o) =>
      var after := s[o + |OPEN|..];
      match Find(after, CLOSE)
      case None => Unclosed(s[..o], after)
      case Some(c) => Spanned(s[..o], after[..c], Parse(after[c + |CLOSE|..]))
  }

  lemma TagSplits(s: bytes, tag: bytes, i: nat)
    requires Find(s, tag) == Some(i)
    ensures s == s[..i] + (tag + s[i + |tag|..])
    ensures Find(s[..i] + tag, tag) == Some(i)
  {
    FindFirst(s, tag);
    FindInTake(s, i + |tag|, tag);
    assert s[..i + |tag|] == s[..i] + tag;
  }

  lemma TagJoins(t: bytes, tag: bytes, rest: bytes)
    requires Find(t + tag, tag) == Some(|t|)
    ensures var s := t + (tag + rest);
      Find(s, tag) == Some(|t|) && s[..|t|] == t && s[|t| + |tag|..] == rest
  {
    FindStable(t + tag, rest, tag);
    assert (t + tag) + rest == t + (tag + rest);
  }

  /** Every text is the rendering of one proper document, and the one-shot text is what that document shows. */
  lemma {:induction false} StripThinkReads(s: bytes)
    ensures Proper(Parse(s)) && Render(Parse(s)) == s && Shown(Parse(s)) == StripThink(s)
    decreases |s|
  {
    if Find(s, OPEN).Some? {
      var o := Find(s, OPEN).value;
      TagSplits(s, OPEN, o);
      SpanReads(s[..o], s[o + |OPEN|..]);
    }
  }

  lemma {:induction false} SpanReads(t: bytes, after: bytes)
    requires Find(t + OPEN, OPEN) == Some(|t|)
    ensures var d := match Find(after, CLOSE)
        case None => Unclosed(t, after)
        case Some(c) => Spanned(t, after[..c], Parse(after[c + |CLOSE|..]));
      Proper(d) && Render(d) == t + (OPEN + after) && Shown(d) == t + Visible(after, true)
    decreases |after|
  {
    if Find(after, CLOSE).Some? {
      var c := Find(after, CLOSE).value;
      TagSplits(after, CLOSE, c);
      StripThinkReads(after[c + |CLOSE|..]);
    }
  }

  lemma ParseOpened(t: bytes, after: bytes)
    requires Find(t + OPEN, OPEN) == Some(|t|)
    ensures Parse(t + (OPEN + after)) == match Find(after, CLOSE)
      case None => Unclosed(t, after)
      case Some(c) => Spanned(t, after[..c], Parse(after[c + |CLOSE|..]))
  {
    TagJoins(t, OPEN, after);
  }

  /** Rendering loses nothing: parsing it back gives the same document. */
  lemma {:induction false} ParseOfRender(d: Doc)
    requires Proper(d)
    ensures Parse(Render(d)) == d
  {
    match d
    case Plain(t) =>
    case Unclosed(t, u) =>
      ParseOpened(t, u);
    case Spanned(t, h, rest) =>
      TagJoins(h, CLOSE, Render(rest));
      ParseOpened(t, h + (CLOSE + Render(rest)));
      ParseOfRender(rest);
  }

  // ----- ledger: no byte is lost or made up, bailouts included -----

  /** What became of a stretch of input: shown, a lone opening tag, or a closed span. */
  datatype Entry = Kept(text: bytes) | Tag | Dropped(span: bytes)

  function EntrySource(e: Entry): bytes {
    match e case Kept(t) => t case Tag => OPEN case Dropped(h) => OPEN + (h + CLOSE)
  }

  function EntryShows(e: Entry): bytes {
    if e.Kept? then e.text else []
  }

  function Source(ledger: seq<Entry>): bytes { FlatMap(EntrySource, ledger) }

  function Emitted(ledger: seq<Entry>): bytes { FlatMap(EntryShows, ledger) }

  /** A dropped span ends at its first closing tag. */
  predicate Honest(ledger: seq<Entry>) {
    forall e <- ledger :: e.Dropped? ==> Find(e.span + CLOSE, CLOSE) == Some(|e.span|)
  }

  ghost predicate Accounts(ledger: seq<Entry>, source: bytes, emitted: bytes) {
    Honest(ledger) && Source(ledger) == source && Emitted(ledger) == emitted
  }

  /** The opening tag a state has consumed but not yet accounted for. */
  function Owed(st: Stripper): bytes { if st.inThink then OPEN else [] }

  lemma LedgerAppend(a: seq<Entry>, b: seq<Entry>, sourceA: bytes, sourceB: bytes, emittedA: bytes, emittedB: bytes)
    requires Accounts(a, sourceA, emittedA) && Accounts(b, sourceB, emittedB)
    ensures Accounts(a + b, sourceA + sourceB, emittedA + emittedB)
  {
    FlatMapAppend(EntrySource, a, b);
    FlatMapAppend(EntryShows, a, b);
  }

  lemma LedgerCons(e: Entry, rest: seq<Entry>, source: bytes, emitted: bytes)
    requires Accounts(rest, source, emitted)
    requires e.Dropped? ==> Find(e.span + CLOSE, CLOSE) == Some(|e.span|)
    ensures Accounts([e] + rest, EntrySource(e) + source, EntryShows(e) + emitted)
  {
    FlatMapOne(EntrySource, e);
    FlatMapOne(EntryShows, e);
    LedgerAppend([e], rest, EntrySource(e), source, EntryShows(e), emitted);
  }

  lemma LedgerKept(t: bytes)
    ensures Accounts([Kept(t)], t, t)
  {
    FlatMapOne(EntrySource, Kept(t));
    FlatMapOne(EntryShows, Kept(t));
  }

  /** One drain: the bytes it consumes are exactly those its ledger accounts for. */
  ghost predicate DrainAccounts(st: Stripper, ledger: seq<Entry>, consumed: bytes) {
    Accounts(ledger, consumed, Drain(st).0) &&
    Owed(st) + st.buf == consumed + (Owed(Drain(st).1) + Drain(st).1.buf)
  }

  lemma DrainLedgerStep(st: Stripper, next: Stripper, e: Entry, rest: seq<Entry>, more: bytes)
    requires DrainAccounts(next, rest, more)
    requires Owed(st) + st.buf == EntrySource(e) + (Owed(next) + next.buf)
    requires Drain(st) == (EntryShows(e) + Drain(next).0, Drain(next).1)
    requires e.Dropped? ==> Find(e.span + CLOSE, CLOSE) == Some(|e.span|)
    ensures DrainAccounts(st, [e] + rest, EntrySource(e) + more)
  {
    LedgerCons(e, rest, more, Drain(next).0);
    Assoc(EntrySource(e), more, Owed(Drain(st).1) + Drain(st).1.buf);
  }

  lemma DrainLedgerOpen(st: Stripper, i: nat, rest: seq<Entry>, more: bytes)
    requires !st.inThink && Find(st.buf, OPEN) == Some(i)
    requires DrainAccounts(Stripper(st.buf[i + |OPEN|..], true), rest, more)
    ensures DrainAccounts(st, [Kept(st.buf[..i])] + rest, st.buf[..i] + more)
  {
    TagSplits(st.buf, OPEN, i);
    AppendEmpty(st.buf, Owed(st));
    DrainLedgerStep(st, Stripper(st.buf[i + |OPEN|..], true), Kept(st.buf[..i]), rest, more);
  }

  lemma DrainLedgerClose(st: Stripper, j: nat, rest: seq<Entry>, more: bytes)
    requires st.inThink && Find(st.buf, CLOSE) == Some(j)
    requires DrainAccounts(Stripper(st.buf[j + |CLOSE|..], false), rest, more)
    ensures DrainAccounts(st, [Dropped(st.buf[..j])] + rest, EntrySource(Dropped(st.buf[..j])) + more)
  {
    var head, next := st.buf[..j], Stripper(st.buf[j + |CLOSE|..], false);
    TagSplits(st.buf, CLOSE, j);
    Assoc(head, CLOSE, next.buf);
    Assoc(OPEN, head + CLOSE, next.buf);
    AppendEmpty(next.buf, Owed(next));
    AppendEmpty(Drain(next).0, EntryShows(Dropped(head)));
    DrainLedgerStep(st, next, Dropped(head), rest, more);
  }

  lemma DrainLedgerBail(st: Stripper)
    requires st.inThink && Find(st.buf, CLOSE).None? && |st.buf| > THINK_BAILOUT
    ensures DrainAccounts(st, [Tag] + [Kept(st.buf)], OPEN + st.buf)
  {
    LedgerKept(st.buf);
    LedgerCons(Tag, [Kept(st.buf)], st.buf, st.buf);
    AppendEmpty(st.buf, EntryShows(Tag));
    AppendEmpty(OPEN + st.buf, Owed(FRESH) + FRESH.buf);
  }

  lemma DrainLedgerHold(st: Stripper)
    requires !st.inThink && Find(st.buf, OPEN).None?
    ensures DrainAccounts(st, [Kept(st.buf[..HoldbackStart(st.buf)])], st.buf[..HoldbackStart(st.buf)])
  {
    var keep := HoldbackStart(st.buf);
    LedgerKept(st.buf[..keep]);
    AppendEmpty(st.buf, Owed(st));
    AppendEmpty(st.buf[keep..], Owed(st));
    assert st.buf == st.buf[..keep] + st.buf[keep..];
  }

  lemma {:induction false} DrainLedger(st: Stripper)
    ensures exists ledger, consumed :: DrainAccounts(st, ledger, consumed)
    decreases |st.buf|
  {
    if st.inThink {
      if Find(st.buf, CLOSE).Some? {
        var j := Find(st.buf, CLOSE).value;
        var next := Stripper(st.buf[j + |CLOSE|..], false);
        DrainLedger(next);
        var rest, more :| DrainAccounts(next, rest, more);
        DrainLedgerClose(st, j, rest, more);
      } else if |st.buf| > THINK_BAILOUT {
        DrainLedgerBail(st);
      } else {
        assert DrainAccounts(st, [], []);
      }
    } else if Find(st.buf, OPEN).Some? {
      var i := Find(st.buf, OPEN).value;
      var next := Stripper(st.buf[i + |OPEN|..], true);
      DrainLedger(next);
      var rest, more :| DrainAccounts(next, rest, more);
      DrainLedgerOpen(st, i, rest, more);
    } else {
      DrainLedgerHold(st);
    }
  }

  /** What a state and the chunks to come hold, the owed tag included. */
  function Held(st: Stripper, chunks: seq<bytes>): bytes {
    Owed(st) + (st.buf + Concat(chunks))
  }

  lemma StreamLedgerEnd(st: Stripper)
    ensures exists ledger :: Accounts(ledger, Held(st, []), Stream(st, []))
  {
    LedgerKept(st.buf);
    assert st.buf + [] == st.buf && [] + st.buf == st.buf;
    if st.inThink {
      LedgerCons(Tag, [Kept(st.buf)], st.buf, st.buf);
      assert Accounts([Tag] + [Kept(st.buf)], Held(st, []), Stream(st, []));
    } else {
      assert Accounts([Kept(st.buf)], Held(st, []), Stream(st, []));
    }
  }

  lemma {:induction false} StreamLedgerFrom(st: Stripper, chunks: seq<bytes>)
    ensures exists ledger :: Accounts(ledger, Held(st, chunks), Stream(st, chunks))
    decreases |chunks|
  {
    if chunks == [] {
      StreamLedgerEnd(st);
    } else {
      var joined, later := Stripper(st.buf + chunks[0], st.inThink), chunks[1..];
      var (out, st') := Drain(joined);
      DrainLedger(joined);
      var first, consumed :| DrainAccounts(joined, first, consumed);
      StreamLedgerFrom(st', later);
      var rest :| Accounts(rest, Held(st', later), Stream(st', later));
      LedgerAppend(first, rest, consumed, Held(st', later), out, Stream(st', later));
      StreamCons(st, chunks);
      HeldStep(st, chunks[0], later, consumed, st');
      assert Accounts(first + rest, Held(st, chunks), Stream(st, chunks));
    }
  }

  lemma HeldStep(st: Stripper, chunk: bytes, later: seq<bytes>, consumed: bytes, st': Stripper)
    requires Owed(st) + (st.buf + chunk) == consumed + (Owed(st') + st'.buf)
    ensures Held(st, [chunk] + later) == consumed + Held(st', later)
  {
    var rest := Concat(later);
    assert ([chunk] + later)[1..] == later;
    calc {
      Owed(st) + (st.buf + (chunk + rest));
      { Assoc(st.buf, chunk, rest); }
      Owed(st) + ((st.buf + chunk) + rest);
      { Assoc(Owed(st), st.buf + chunk, rest); }
      (Owed(st) + (st.buf + chunk)) + rest;
      (consumed + (Owed(st') + st'.buf)) + rest;
      { Assoc(consumed, Owed(st') + st'.buf, rest); Assoc(Owed(st'), st'.buf, rest); }
      consumed + Held(st', later);
    }
  }

  /** Whatever the spans and the chunks: every input byte is delivered in order,
      or is an opening tag, or lies in a closed span. */
  lemma StreamLedger(chunks: seq<bytes>)
    ensures exists ledger :: Accounts(ledger, Concat(chunks), Stream(FRESH, chunks))
  {
    StreamLedgerFrom(FRESH, chunks);
    assert Held(FRESH, chunks) == Concat(chunks);
  }

  // ----- what one push of a whole text leaves held -----

  /** The document ends in visible text that could still turn out to begin a tag,
      or in a span that could still be closed. */
  predicate LeavesTail(d: Doc) {
    match d
    case Plain(t) => t != []
    case Unclosed(_, u) => u != [] && |u| <= THINK_BAILOUT
    case Spanned(_, _, rest) => LeavesTail(rest)
  }

  lemma HoldsBack(s: bytes)
    requires Utf8(s) && s != []
    ensures HoldbackStart(s) < |s|
  {
    hide Utf8;
    BoundaryNear(s, |s| - 1);
  }

  /** Past a closed span neither the machine nor the reader remembers anything. */
  lemma PastSpan(s: bytes, o: nat, c: nat)
    requires Find(s, OPEN) == Some(o) && Find(s[o + |OPEN|..], CLOSE) == Some(c)
    ensures var rest := s[o + |OPEN|..][c + |CLOSE|..];
      Drain(Stripper(s, false)).1 == Drain(Stripper(rest, false)).1 && LeavesTail(Parse(s)) == LeavesTail(Parse(rest))
  {
    DrainTag(Stripper(s, false), o);
    DrainTag(Stripper(s[o + |OPEN|..], true), c);
  }

  lemma LeavesNoSpan(s: bytes)
    requires Utf8(s)
    requires match Find(s, OPEN) case None => true case Some(o) => Find(s[o + |OPEN|..], CLOSE).None?
    ensures Drain(Stripper(s, false)).1.buf != [] <==> LeavesTail(Parse(s))
  {
    hide Utf8;
    match Find(s, OPEN)
    case None => if s != [] { HoldsBack(s); }
    case Some(o) => DrainTag(Stripper(s, false), o);
  }

  lemma {:induction false} PushLeavesTail(s: bytes)
    requires Utf8(s)
    ensures Drain(Stripper(s, false)).1.buf != [] <==> LeavesTail(Parse(s))
    decreases |s|
  {
    hide Utf8, Drain, Parse;
    if Find(s, OPEN).Some? && Find(s[Find(s, OPEN).value + |OPEN|..], CLOSE).Some? {
      var o := Find(s, OPEN).value;
      var after := s[o + |OPEN|..];
      var c := Find(after, CLOSE).value;
      TagCuts(s, OPEN, o);
      TagCuts(after, CLOSE, c);
      PastSpan(s, o, c);
      PushLeavesTail(after[c + |CLOSE|..]);
    } else {
      LeavesNoSpan(s);
    }
  }
}

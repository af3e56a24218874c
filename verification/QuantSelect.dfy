/** Picking a quant: a listed key always finds its own candidate, and without a request
    some listed candidate is picked. */
module QuantSelect {
  import opened Decimal
  import opened QuantCandidates
  import opened QuantNames
  import opened ShardNames
  import opened Sorting
  import opened Text

  // ----- keys -----

  predicate Separator(c: char) { c == '_' || c == '-' }

  ghost predicate Plain(s: string) {
    forall i :: 0 <= i < |s| ==> !IsUpper(s[i]) && !Separator(s[i])
  }

  lemma {:induction false} JoinedPlain(s: string)
    requires forall i :: 0 <= i < |s| ==> !IsUpper(s[i])
    ensures Plain(Joined(s))
  {
    if s != [] { JoinedPlain(s[1..]); }
  }

  lemma {:induction false} PlainJoined(s: string)
    requires forall i :: 0 <= i < |s| ==> !Separator(s[i])
    ensures Joined(s) == s
  {
    if s != [] {
      PlainJoined(s[1..]);
      assert s == [s[0]] + s[1..];
    }
  }

  lemma CompactPlain(s: string)
    ensures Plain(Compact(s))
    ensures Plain(s) ==> Compact(s) == s
  {
    JoinedPlain(Lower(s));
    if Plain(s) {
      assert Lower(s) == s;
      PlainJoined(s);
    }
  }

  lemma JoinedCons(c: char, s: string)
    ensures Joined([c] + s) == (if Separator(c) then [] else [c]) + Joined(s)
  {
    assert ([c] + s)[1..] == s;
  }

  lemma LowerMarked(s: string)
    requires Lower(s) == s
    ensures Lower(IMATRIX + s) == IMATRIX + s
  {
    LowerPlus(IMATRIX, s);
    assert Lower(IMATRIX) == IMATRIX;
  }

  lemma Letters(s: string)
    ensures IMATRIX + s == ['i'] + (['1'] + (['-'] + s))
    ensures "i1" + s == ['i'] + (['1'] + s)
  {
  }

  lemma CompactMarked(s: string)
    requires Lower(s) == s && Joined(s) == s
    ensures Compact(IMATRIX + s) == "i1" + s
  {
    LowerMarked(s);
    Letters(s);
    var a := ['-'] + s;
    JoinedCons('-', s);
    JoinedCons('1', a);
    JoinedCons('i', ['1'] + a);
  }

  ghost predicate Produced(key: string) { exists name :: KeyOf(name) == Some(key) }

  /** No quant token begins like the imatrix marker. */
  lemma TokenStart(token: string)
    requires IsQuantToken(token)
    ensures !("i1" <= Compact(token))
  {
    var s := Lower(token);
    assert s[0] != '_' && s[0] != '-';
    assert Joined(s) == [s[0]] + Joined(s[1..]);
    assert "i1"[0] == 'i' && "i1"[1] == '1';
    if s[0] == 'i' {
      assert "iq" <= s && s[1] == "iq"[1];
      assert Joined(s[1..]) == [s[1]] + Joined(s[1..][1..]);
      assert Joined(s)[1] == 'q';
    } else {
      assert Joined(s)[0] != 'i';
    }
  }

  lemma KeyShape(key: string)
    requires Produced(key)
    ensures (Plain(key) && !("i1" <= key)) || (IMATRIX <= key && Plain(key[3..]))
  {
    var name :| KeyOf(name) == Some(key);
    var segments := Segments(SplitShard(StripGguf(Lower(name)).value).base);
    var token := segments[LastQuant(segments).value];
    CompactPlain(token);
    TokenStart(token);
    if key != Compact(token) {
      assert key == IMATRIX + Compact(token);
      assert key[3..] == Compact(token);
    }
  }

  lemma CompactKey(key: string)
    requires Produced(key)
    ensures Compact(key) == if IMATRIX <= key then "i1" + key[3..] else key
    ensures !(IMATRIX <= key) ==> !("i1" <= Compact(key))
  {
    KeyShape(key);
    if IMATRIX <= key {
      assert key == IMATRIX + key[3..];
      assert key[2] == '-';
      var rest := key[3..];
      assert Lower(rest) == rest;
      PlainJoined(rest);
      CompactMarked(rest);
    } else {
      CompactPlain(key);
    }
  }

  /** Distinct keys stay distinct without their separators. */
  lemma {:induction false} CompactInjective(a: string, b: string)
    ensures Produced(a) && Produced(b) && Compact(a) == Compact(b) ==> a == b
  {
    if Produced(a) && Produced(b) && Compact(a) == Compact(b) {
      CompactKey(a);
      CompactKey(b);
      if IMATRIX <= a && IMATRIX <= b {
        assert a == IMATRIX + a[3..] && b == IMATRIX + b[3..];
        assert ("i1" + a[3..])[2..] == a[3..] && ("i1" + b[3..])[2..] == b[3..];
      }
    }
  }

  // ----- matching a request -----

  datatype Selected = Picked(candidate: Candidate) | NoneAvailable | Unknown(requested: string)

  function WithoutImatrix(compact: string): string { if "i1" <= compact then compact[2..] else compact }

  predicate Exact(c: Candidate, requested: string) {
    Lower(c.key) == Lower(requested) || Compact(c.key) == Compact(requested)
  }

  /** The request up to the imatrix marker. */
  predicate Fuzzy(c: Candidate, requested: string) {
    WithoutImatrix(Compact(c.key)) == WithoutImatrix(Compact(requested))
  }

  method Position(candidates: seq<Candidate>, requested: string) returns (r: Option<nat>)
    ensures r.Some? ==> r.value < |candidates| && Exact(candidates[r.value], requested)
    ensures r.None? ==> forall c <- candidates :: !Exact(c, requested)
  {
    for n := 0 to |candidates|
      invariant forall c <- candidates[..n] :: !Exact(c, requested)
    {
      if Exact(candidates[n], requested) {
        return Some(n);
      }
      assert candidates[..n + 1] == candidates[..n] + [candidates[n]];
    }
    assert candidates[..|candidates|] == candidates;
    r := None;
  }

  method FuzzyIndexes(candidates: seq<Candidate>, requested: string) returns (fuzzy: seq<nat>)
    ensures forall i: nat :: i in fuzzy <==> i < |candidates| && Fuzzy(candidates[i], requested)
    ensures forall i, j :: 0 <= i < j < |fuzzy| ==> fuzzy[i] < fuzzy[j]
  {
    hide Compact, WithoutImatrix;
    fuzzy := [];
    for n := 0 to |candidates|
      invariant forall i: nat :: i in fuzzy <==> i < n && Fuzzy(candidates[i], requested)
      invariant forall i, j :: 0 <= i < j < |fuzzy| ==> fuzzy[i] < fuzzy[j]
    {
      if Fuzzy(candidates[n], requested) {
        assert forall i :: 0 <= i < |fuzzy| ==> fuzzy[i] in fuzzy;
        fuzzy := fuzzy + [n];
      }
    }
  }

  /** The only candidate that matches up to the imatrix marker. */
  ghost predicate OnlyFuzzy(candidates: seq<Candidate>, requested: string, i: nat) {
    i < |candidates| && Fuzzy(candidates[i], requested) &&
    forall j: nat :: j < |candidates| && Fuzzy(candidates[j], requested) ==> j == i
  }

  /** An exact match wins; failing that, a match up to the imatrix marker, if there is just one. */
  method MatchQuant(candidates: seq<Candidate>, requested: string) returns (r: Option<nat>)
    ensures r.Some? ==> r.value < |candidates|
    ensures (exists c <- candidates :: Exact(c, requested)) ==> r.Some? && Exact(candidates[r.value], requested)
    ensures (forall c <- candidates :: !Exact(c, requested)) ==>
              forall i: nat :: r == Some(i) <==> OnlyFuzzy(candidates, requested, i)
  {
    r := Position(candidates, requested);
    if r.Some? {
      assert candidates[r.value] in candidates;
      return;
    }
    var fuzzy := FuzzyIndexes(candidates, requested);
    SoleElement(fuzzy);
    if |fuzzy| == 1 {
      assert fuzzy[0] in fuzzy;
      r := Some(fuzzy[0]);
    }
  }

  lemma SoleElement(s: seq<nat>)
    requires forall i, j :: 0 <= i < j < |s| ==> s[i] < s[j]
    ensures |s| > 1 ==> s[0] in s && s[1] in s && s[0] != s[1]
    ensures |s| == 1 ==> forall y: nat :: y in s <==> y == s[0]
  {
    if |s| > 1 { assert s[0] < s[1]; }
  }

  const FAVOURITE := "q4km"

  predicate Favourite(c: Candidate) { WithoutImatrix(Compact(c.key)) == FAVOURITE }

  function SizeOf(c: Candidate): nat { if c.total.Some? then c.total.value else 0 }

  /** The favourite quant, else the middle one: by size when every size is known. */
  method DefaultIndex(candidates: seq<Candidate>) returns (i: nat)
    requires candidates != []
    ensures i < |candidates|
    ensures (exists c <- candidates :: Favourite(c)) ==> Favourite(candidates[i])
    ensures (forall c <- candidates :: !Favourite(c)) && (exists c <- candidates :: c.total.None?) ==>
              i == |candidates| / 2
    ensures (forall c <- candidates :: !Favourite(c) && c.total.Some?) ==>
              SizeOf(candidates[i]) == SizeOf(SortBy(SizeOf, candidates)[|candidates| / 2])
  {
    for n := 0 to |candidates|
      invariant forall c <- candidates[..n] :: !Favourite(c)
    {
      if Favourite(candidates[n]) {
        assert candidates[n] in candidates;
        return n;
      }
      assert candidates[..n + 1] == candidates[..n] + [candidates[n]];
    }
    assert candidates[..|candidates|] == candidates;
    if forall c <- candidates :: c.total.Some? {
      i := MiddleBySize(candidates);
    } else {
      i := |candidates| / 2;
    }
  }

  /** Indexes are sorted by size, and the middle one taken. */
  method MiddleBySize(candidates: seq<Candidate>) returns (i: nat)
    requires candidates != []
    ensures i < |candidates| && SizeOf(candidates[i]) == SizeOf(SortBy(SizeOf, candidates)[|candidates| / 2])
  {
    var n := |candidates|;
    var indexes: seq<nat> := seq(n, (k: nat) => k);
    var size: nat -> nat := (k: nat) => if k < n then SizeOf(candidates[k]) else 0;
    var order := SortBy(size, indexes);
    i := order[n / 2];
    SortOrders(size, indexes);
    assert i in multiset(order);
    SortedAlike(candidates, indexes, size);
  }

  lemma {:induction false} InsertedAlike<S, T>(a: seq<S>, b: seq<T>, f: S -> nat, g: T -> nat, x: S, y: T)
    requires Map(f, a) == Map(g, b) && f(x) == g(y)
    ensures Map(f, InsertBy(f, x, a)) == Map(g, InsertBy(g, y, b))
  {
    assert |a| == |Map(f, a)| == |b|;
    MapOne(f, x);
    MapOne(g, y);
    MapAppend(f, [x], a);
    MapAppend(g, [y], b);
    if a != [] {
      MapCons(f, a);
      MapCons(g, b);
      assert f(a[0]) == Map(f, a)[0] == g(b[0]);
      if f(x) > f(a[0]) {
        InsertedAlike(a[1..], b[1..], f, g, x, y);
        MapAppend(f, [a[0]], InsertBy(f, x, a[1..]));
        MapAppend(g, [b[0]], InsertBy(g, y, b[1..]));
        MapOne(f, a[0]);
        MapOne(g, b[0]);
      }
    }
  }

  lemma {:induction false} SortsAlike<S, T>(a: seq<S>, b: seq<T>, f: S -> nat, g: T -> nat)
    requires Map(f, a) == Map(g, b)
    ensures Map(f, SortBy(f, a)) == Map(g, SortBy(g, b))
  {
    assert |a| == |Map(f, a)| == |b|;
    if a != [] {
      MapCons(f, a);
      MapCons(g, b);
      assert f(a[0]) == Map(f, a)[0] == g(b[0]);
      SortsAlike(a[1..], b[1..], f, g);
      InsertedAlike(SortBy(f, a[1..]), SortBy(g, b[1..]), f, g, a[0], b[0]);
    }
  }

  lemma SortedAlike(candidates: seq<Candidate>, indexes: seq<nat>, size: nat -> nat)
    requires |indexes| == |candidates| > 0
    requires forall k: nat :: k < |indexes| ==> indexes[k] == k && size(k) == SizeOf(candidates[k])
    ensures size(SortBy(size, indexes)[|candidates| / 2]) == SizeOf(SortBy(SizeOf, candidates)[|candidates| / 2])
  {
    var order, sorted, middle := SortBy(size, indexes), SortBy(SizeOf, candidates), |candidates| / 2;
    assert Map(size, indexes) == Map(SizeOf, candidates);
    SortsAlike(indexes, candidates, size, SizeOf);
    assert Map(size, order)[middle] == size(order[middle]) && Map(SizeOf, sorted)[middle] == SizeOf(sorted[middle]);
  }

  lemma ListedKeyIsProduced(files: seq<QuantFile>, candidates: seq<Candidate>, c: Candidate)
    requires IsAnswer(files, candidates) && c in candidates
    ensures Produced(c.key)
  {
    var base, order :| Describes(files, c, base, order);
    MembersBelong(files, c.key, base);
    var parts := Members(files, c.key, base);
    assert parts != [] && parts[0] in parts;
  }

  lemma {:induction false} MembersBelong(files: seq<QuantFile>, key: string, base: string)
    ensures forall file <- Members(files, key, base) :: Belongs(file, key, base)
  {
    if files != [] { MembersBelong(files[1..], key, base); }
  }

  /** Of the candidates of a listing, only one answers a request for a listed key, in
      whatever case or with whatever separators it is written. */
  lemma ExactIsUnique(files: seq<QuantFile>, candidates: seq<Candidate>, c: Candidate, d: Candidate, requested: string)
    requires IsAnswer(files, candidates) && c in candidates && d in candidates
    requires Exact(c, requested) && Exact(d, requested)
    ensures c == d
  {
    ListedKeyIsProduced(files, candidates, c);
    ListedKeyIsProduced(files, candidates, d);
    CompactOfLower(c.key, requested);
    CompactOfLower(d.key, requested);
    CompactInjective(c.key, d.key);
    SameKeySame(files, candidates, c, d);
  }

  lemma CompactOfLower(a: string, b: string)
    ensures Lower(a) == Lower(b) ==> Compact(a) == Compact(b)
  {
  }

  lemma SameKeySame(files: seq<QuantFile>, candidates: seq<Candidate>, c: Candidate, d: Candidate)
    requires IsAnswer(files, candidates) && c in candidates && d in candidates && c.key == d.key
    ensures c == d
  {
    RightIsUnique(files, files, c, d);
  }

  /** A request for a listed key, in whatever case or with whatever separators it is
      written, picks that key's candidate; without a request one is always picked. */
  method SelectQuant(candidates: seq<Candidate>, requested: Option<string>) returns (r: Selected)
    ensures candidates == [] <==> r == NoneAvailable
    ensures r.Picked? ==> r.candidate in candidates
    ensures candidates != [] && requested.None? ==> r.Picked?
    ensures requested.Some? && (exists c <- candidates :: Exact(c, requested.value)) ==>
              r.Picked? && Exact(r.candidate, requested.value)
    ensures requested.Some? ==>
              forall files, c :: IsAnswer(files, candidates) && c in candidates && Exact(c, requested.value) ==>
                r == Picked(c)
    ensures r.Unknown? ==> requested == Some(r.requested) && forall c <- candidates :: !Exact(c, r.requested)
  {
    if candidates == [] {
      return NoneAvailable;
    }
    match requested
    case Some(wanted) =>
      var i := MatchQuant(candidates, wanted);
      if i.None? {
        return Unknown(wanted);
      }
      r := Picked(candidates[i.value]);
      forall files, c | IsAnswer(files, candidates) && c in candidates && Exact(c, wanted) ensures r == Picked(c) {
        ExactIsUnique(files, candidates, c, candidates[i.value], wanted);
      }
    case None =>
      var i := DefaultIndex(candidates);
      r := Picked(candidates[i]);
  }

  // ----- what matching comes to, on the keys of a listing -----

  /** A key without its imatrix marker. */
  function Bare(key: string): string { if IMATRIX <= key then key[3..] else key }

  lemma BareKey(key: string)
    requires Produced(key)
    ensures WithoutImatrix(Compact(key)) == Bare(key)
  {
    CompactKey(key);
    if IMATRIX <= key {
      assert ("i1" + key[3..])[2..] == key[3..];
    }
  }

  /** A request for a static build or for its imatrix build. */
  lemma RequestReads(w: string)
    requires Plain(w) && !("i1" <= w)
    ensures Compact(w) == w && WithoutImatrix(Compact(w)) == w
    ensures Compact(IMATRIX + w) == "i1" + w && WithoutImatrix(Compact(IMATRIX + w)) == w
  {
    CompactPlain(w);
    assert Lower(w) == w;
    PlainJoined(w);
    CompactMarked(w);
    assert ("i1" + w)[2..] == w;
  }

  lemma KeyFromBare(key: string)
    ensures key == if IMATRIX <= key then IMATRIX + Bare(key) else Bare(key)
  {
  }

  /** A plain request matches the two builds of its quant up to the marker, and nothing else. */
  lemma FuzzyMeans(c: Candidate, w: string)
    requires Produced(c.key) && Plain(w) && !("i1" <= w)
    ensures Fuzzy(c, w) <==> Bare(c.key) == w
    ensures Fuzzy(c, IMATRIX + w) <==> Bare(c.key) == w
  {
    hide Compact, WithoutImatrix, Produced;
    BareKey(c.key);
    RequestReads(w);
  }

  /** And exactly, only the one it names. */
  lemma ExactMeans(c: Candidate, w: string)
    requires Produced(c.key) && Plain(w) && !("i1" <= w)
    ensures Exact(c, w) <==> c.key == w
    ensures Exact(c, IMATRIX + w) <==> c.key == IMATRIX + w
  {
    RequestReads(w);
    CompactKey(c.key);
    KeyShape(c.key);
    CompactOfLower(c.key, w);
    CompactOfLower(c.key, IMATRIX + w);
    if IMATRIX <= c.key {
      assert c.key == IMATRIX + c.key[3..];
      assert Compact(c.key)[2..] == c.key[3..] && ("i1" + w)[2..] == w;
      assert "i1" <= Compact(c.key);
    }
  }

  /** With one build of a quant listed, a request for either build finds it. */
  lemma SoleBuildIsFound(candidates: seq<Candidate>, w: string, i: nat)
    requires (forall c <- candidates :: Produced(c.key)) && Plain(w) && !("i1" <= w)
    requires i < |candidates| && Bare(candidates[i].key) == w
    requires forall j :: 0 <= j < |candidates| && j != i ==> Bare(candidates[j].key) != w
    ensures OnlyFuzzy(candidates, w, i) && OnlyFuzzy(candidates, IMATRIX + w, i)
    ensures forall c <- candidates :: Exact(c, w) || Exact(c, IMATRIX + w) ==> c == candidates[i]
  {
    hide Fuzzy, Exact, Produced;
    forall j: nat | j < |candidates|
      ensures Fuzzy(candidates[j], w) <==> j == i
      ensures Fuzzy(candidates[j], IMATRIX + w) <==> j == i
      ensures Exact(candidates[j], w) || Exact(candidates[j], IMATRIX + w) ==> j == i
    {
      assert candidates[j] in candidates;
      FuzzyMeans(candidates[j], w);
      ExactMeans(candidates[j], w);
      KeyFromBare(candidates[j].key);
      BareMarked(w);
    }
  }

  lemma BareMarked(w: string)
    requires Plain(w)
    ensures Bare(IMATRIX + w) == w && Bare(w) == w
  {
    assert IMATRIX[2] == '-';
  }

  /** The default prefers Q4_K_M, with or without the marker. */
  lemma FavouriteMeans(c: Candidate)
    requires Produced(c.key)
    ensures Favourite(c) <==> c.key == "q4km" || c.key == "i1-q4km"
  {
    BareKey(c.key);
    KeyFromBare(c.key);
    assert "i1-q4km" == IMATRIX + "q4km" && "i1-q4km"[3..] == "q4km";
    assert "q4km"[0] == 'q';
  }
}

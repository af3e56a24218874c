/** Bytes, substring search and UTF-8, shared by every module of the model. */
module Text {

  newtype byte = b: int | 0 <= b < 256
  type bytes = seq<byte>

  datatype Option<+T> = None | Some(value: T)

  function OrElse<T>(a: Option<T>, b: T): T { if a.Some? then a.value else b }

  // ----- substring search -----

  /** `needle` occurs in `hay` at position `i`. */
  predicate At<T(==)>(hay: seq<T>, needle: seq<T>, i: int) {
    0 <= i <= |hay| - |needle| && hay[i..i + |needle|] == needle
  }

  ghost predicate Absent<T>(hay: seq<T>, needle: seq<T>) {
    forall k :: !At(hay, needle, k)
  }

  /** The first position at or after `from` where `needle` occurs. */
  function FindFrom<T(==)>(hay: seq<T>, needle: seq<T>, from: nat): (r: Option<nat>)
    ensures r.Some? ==> from <= r.value <= |hay| - |needle|
    decreases |hay| - from
  {
    if from + |needle| > |hay| then None
    else if At(hay, needle, from) then Some(from)
    else FindFrom(hay, needle, from + 1)
  }

  /** The first occurrence of `needle` in `hay`. */
  function Find<T(==)>(hay: seq<T>, needle: seq<T>): (r: Option<nat>)
    ensures r.Some? ==> r.value <= |hay| - |needle|
  {
    FindFrom(hay, needle, 0)
  }

  ghost predicate First<T>(hay: seq<T>, needle: seq<T>, from: int, i: int) {
    from <= i && At(hay, needle, i) && forall k :: from <= k < i ==> !At(hay, needle, k)
  }

  lemma {:induction false} FindFromFirst<T>(hay: seq<T>, needle: seq<T>, from: nat)
    ensures FindFrom(hay, needle, from).Some? ==> First(hay, needle, from, FindFrom(hay, needle, from).value)
    ensures FindFrom(hay, needle, from).None? ==> forall k :: from <= k ==> !At(hay, needle, k)
    decreases |hay| - from
  {
    if from + |needle| <= |hay| && !At(hay, needle, from) {
      FindFromFirst(hay, needle, from + 1);
    }
  }

  /** `Find` answers the first occurrence, and `None` only when there is none. */
  lemma FindFirst<T>(hay: seq<T>, needle: seq<T>)
    ensures Find(hay, needle).Some? <==> !Absent(hay, needle)
    ensures forall i: nat :: Find(hay, needle) == Some(i) <==> First(hay, needle, 0, i)
  {
    FindFromFirst(hay, needle, 0);
  }

  lemma AtByte<T>(hay: seq<T>, needle: seq<T>, i: int, j: nat)
    requires j < |needle|
    ensures At(hay, needle, i) ==> hay[i + j] == needle[j]
  {
    if At(hay, needle, i) {
      assert hay[i..i + |needle|][j] == hay[i + j];
    }
  }

  lemma AtPrefix<T>(s: seq<T>, t: seq<T>, needle: seq<T>, i: int)
    requires i + |needle| <= |s|
    ensures At(s + t, needle, i) <==> At(s, needle, i)
  {
    if 0 <= i {
      assert (s + t)[i..i + |needle|] == s[i..i + |needle|];
    }
  }

  lemma AtSuffix<T>(s: seq<T>, t: seq<T>, needle: seq<T>, i: int)
    requires |s| <= i
    ensures At(s + t, needle, i) <==> At(t, needle, i - |s|)
  {
    if i + |needle| <= |s| + |t| {
      assert (s + t)[i..i + |needle|] == t[i - |s|..i - |s| + |needle|];
    }
  }

  /** What follows the text cannot move an occurrence that is already complete. */
  lemma FindStable<T>(s: seq<T>, t: seq<T>, needle: seq<T>)
    requires Find(s, needle).Some?
    ensures Find(s + t, needle) == Find(s, needle)
  {
    var i := Find(s, needle).value;
    FindFirst(s, needle);
    FindFirst(s + t, needle);
    forall k | k <= i ensures At(s + t, needle, k) <==> At(s, needle, k) {
      AtPrefix(s, t, needle, k);
    }
    assert First(s + t, needle, 0, i);
  }

  /** Nor can cutting the text after it. */
  lemma FindInTake<T>(s: seq<T>, k: nat, needle: seq<T>)
    requires k <= |s| && Find(s, needle).Some? && Find(s, needle).value + |needle| <= k
    ensures Find(s[..k], needle) == Find(s, needle)
  {
    var i := Find(s, needle).value;
    FindFirst(s, needle);
    FindFirst(s[..k], needle);
    forall j | j <= i ensures At(s[..k], needle, j) <==> At(s, needle, j) {
      AtPrefix(s[..k], s[k..], needle, j);
      assert s == s[..k] + s[k..];
    }
    assert First(s[..k], needle, 0, i);
  }

  lemma FindNotInTake<T>(s: seq<T>, k: nat, needle: seq<T>)
    requires k <= |s| && (Find(s, needle).Some? ==> k < Find(s, needle).value + |needle|)
    ensures Find(s[..k], needle).None?
  {
    FindFirst(s, needle);
    FindFirst(s[..k], needle);
    forall j | At(s[..k], needle, j) ensures At(s, needle, j) {
      AtPrefix(s[..k], s[k..], needle, j);
      assert s == s[..k] + s[k..];
    }
  }

  /** A prefix in which no occurrence starts only shifts the first occurrence. */
  lemma FindShift<T>(s: seq<T>, t: seq<T>, needle: seq<T>)
    requires forall k :: k < |s| ==> !At(s + t, needle, k)
    ensures Find(t, needle).None? ==> Find(s + t, needle).None?
    ensures Find(t, needle).Some? ==> Find(s + t, needle) == Some(|s| + Find(t, needle).value)
  {
    FindFirst(t, needle);
    FindFirst(s + t, needle);
    forall k | |s| <= k ensures At(s + t, needle, k) <==> At(t, needle, k - |s|) {
      AtSuffix(s, t, needle, k);
    }
    if Find(t, needle).Some? {
      assert First(s + t, needle, 0, |s| + Find(t, needle).value);
    }
  }

  lemma AtSlice<T>(s: seq<T>, needle: seq<T>, i: nat, j: nat, k: int)
    requires i <= j <= |s| && At(s[i..j], needle, k)
    ensures At(s, needle, i + k)
  {
    var occurrence := s[i + k..i + k + |needle|];
    assert forall n :: 0 <= n < |needle| ==> occurrence[n] == s[i..j][k..k + |needle|][n];
  }

  /** A needle absent from a text is absent from every slice of it. */
  lemma NotInSlice<T>(s: seq<T>, needle: seq<T>, i: nat, j: nat)
    requires i <= j <= |s| && Find(s, needle).None?
    ensures Find(s[i..j], needle).None?
  {
    FindFirst(s, needle);
    FindFirst(s[i..j], needle);
    forall k | At(s[i..j], needle, k) ensures At(s, needle, i + k) {
      AtSlice(s, needle, i, j, k);
    }
  }

  function Concat<T>(parts: seq<seq<T>>): seq<T> {
    if parts == [] then [] else parts[0] + Concat(parts[1..])
  }

  lemma Assoc<T>(a: seq<T>, b: seq<T>, c: seq<T>)
    ensures (a + b) + c == a + (b + c)
  {
  }

  lemma AppendEmpty<T>(s: seq<T>, e: seq<T>)
    requires |e| == 0
    ensures s + e == s && e + s == s
  {
  }

  function Map<A, B>(f: A -> B, s: seq<A>): seq<B> {
    seq(|s|, i requires 0 <= i < |s| => f(s[i]))
  }

  lemma MapAppend<A, B>(f: A -> B, a: seq<A>, b: seq<A>)
    ensures Map(f, a + b) == Map(f, a) + Map(f, b)
  {
  }

  lemma MapCons<A, B>(f: A -> B, s: seq<A>)
    requires s != []
    ensures Map(f, s) == [f(s[0])] + Map(f, s[1..])
    ensures Map(f, s)[1..] == Map(f, s[1..])
  {
  }

  lemma MapOne<A, B>(f: A -> B, x: A)
    ensures Map(f, [x]) == [f(x)]
  {
  }

  /** The images of the elements, one after the other. */
  function FlatMap<A, B>(f: A -> seq<B>, s: seq<A>): seq<B> {
    if s == [] then [] else f(s[0]) + FlatMap(f, s[1..])
  }

  lemma {:induction false} FlatMapAppend<A, B>(f: A -> seq<B>, a: seq<A>, b: seq<A>)
    ensures FlatMap(f, a + b) == FlatMap(f, a) + FlatMap(f, b)
  {
    if a == [] {
      assert a + b == b;
    } else {
      var head, tail := a[0], a[1..];
      assert (a + b)[0] == head && (a + b)[1..] == tail + b;
      calc {
        FlatMap(f, a + b);
        f(head) + FlatMap(f, tail + b);
        { FlatMapAppend(f, tail, b); }
        f(head) + (FlatMap(f, tail) + FlatMap(f, b));
        { Assoc(f(head), FlatMap(f, tail), FlatMap(f, b)); }
        FlatMap(f, a) + FlatMap(f, b);
      }
    }
  }

  lemma FlatMapOne<A, B>(f: A -> seq<B>, x: A)
    ensures FlatMap(f, [x]) == f(x)
  {
    assert [x][1..] == [];
  }

  lemma FlatMapCons<A, B>(f: A -> seq<B>, x: A, s: seq<A>)
    ensures FlatMap(f, [x] + s) == f(x) + FlatMap(f, s)
  {
    assert ([x] + s)[1..] == s;
  }

  lemma {:induction false} ConcatAppend<T>(a: seq<seq<T>>, b: seq<seq<T>>)
    ensures Concat(a + b) == Concat(a) + Concat(b)
  {
    if a == [] {
      assert a + b == b;
    } else {
      var head, tail := a[0], a[1..];
      ConcatAppend(tail, b);
      assert (a + b)[0] == head && (a + b)[1..] == tail + b;
      calc {
        Concat(a + b);
        head + Concat(tail + b);
        head + (Concat(tail) + Concat(b));
        (head + Concat(tail)) + Concat(b);
      }
    }
  }

  lemma ConcatOne<T>(part: seq<T>)
    ensures Concat([part]) == part
  {
    assert [part][1..] == [];
    AppendEmpty(part, Concat<T>([]));
  }

  // ----- UTF-8 (RFC 3629, section 4) -----

  predicate Continuation(b: byte) { 0x80 <= b < 0xC0 }

  /** Length of the well-formed character at the head of `s`, or 0. */
  function CharLen(s: bytes): (n: nat)
    ensures n <= 4 && n <= |s|
    ensures n > 0 ==> !Continuation(s[0]) && forall k :: 0 < k < n ==> Continuation(s[k])
    ensures |s| > 0 && s[0] < 0x80 ==> n == 1
  {
    if s == [] then 0
    else
      var tail := k => 0 <= k < |s| && Continuation(s[k]);
      if s[0] < 0x80 then 1
      else if 0xC2 <= s[0] <= 0xDF then (if tail(1) then 2 else 0)
      else if 0xE0 <= s[0] <= 0xEF then
        if tail(1) && tail(2) && (s[0] == 0xE0 ==> s[1] >= 0xA0) && (s[0] == 0xED ==> s[1] < 0xA0)
        then 3 else 0
      else if 0xF0 <= s[0] <= 0xF4 then
        if tail(1) && tail(2) && tail(3) && (s[0] == 0xF0 ==> s[1] >= 0x90) && (s[0] == 0xF4 ==> s[1] < 0x90)
        then 4 else 0
      else 0
  }

  predicate Utf8(s: bytes) {
    s == [] || (CharLen(s) > 0 && Utf8(s[CharLen(s)..]))
  }

  /** `str::is_char_boundary`. */
  predicate Boundary(s: bytes, i: int) {
    0 <= i <= |s| && (i == 0 || i == |s| || !Continuation(s[i]))
  }

  lemma CharLenPrefix(s: bytes, t: bytes)
    requires CharLen(s) > 0
    ensures CharLen(s + t) == CharLen(s)
  {
    assert forall k :: 0 <= k < |s| ==> (s + t)[k] == s[k];
  }

  lemma CharLenTake(s: bytes, i: nat)
    requires 0 < CharLen(s) <= i <= |s|
    ensures CharLen(s[..i]) == CharLen(s)
  {
    assert forall k :: 0 <= k < i ==> s[..i][k] == s[k];
  }

  /** Cutting well-formed text at a character boundary leaves well-formed halves. */
  lemma {:induction false} Utf8Split(s: bytes, i: nat)
    requires Utf8(s) && Boundary(s, i)
    ensures Utf8(s[..i]) && Utf8(s[i..])
    decreases |s|
  {
    if i == 0 {
      assert s[..0] == [] && s[0..] == s;
    } else {
      var n := CharLen(s);
      assert n <= i;
      assert i < |s| ==> s[n..][i - n] == s[i];
      Utf8Split(s[n..], i - n);
      CharLenTake(s, i);
      assert s[..i][n..] == s[n..][..i - n];
      assert s[n..][i - n..] == s[i..];
    }
  }

  lemma {:induction false} Utf8Concat(s: bytes, t: bytes)
    requires Utf8(s) && Utf8(t)
    ensures Utf8(s + t)
    decreases |s|
  {
    if s == [] {
      assert s + t == t;
    } else {
      CharLenPrefix(s, t);
      Utf8Concat(s[CharLen(s)..], t);
      assert (s + t)[CharLen(s)..] == s[CharLen(s)..] + t;
    }
  }

  /** An ASCII byte in well-formed text is a whole character: both its ends are boundaries. */
  lemma {:induction false} AsciiBoundary(s: bytes, i: nat)
    requires Utf8(s) && i < |s| && s[i] < 0x80
    ensures Boundary(s, i) && Boundary(s, i + 1)
    decreases |s|
  {
    var n := CharLen(s);
    if i == 0 {
      if |s| > 1 {
        assert s[1..] != [] && CharLen(s[1..]) > 0 && s[1..][0] == s[1];
      }
    } else {
      assert n <= i;
      assert s[n..][i - n] == s[i];
      AsciiBoundary(s[n..], i - n);
      if i + 1 < |s| {
        assert s[n..][i + 1 - n] == s[i + 1];
      }
    }
  }

  /** No character is longer than four bytes, so a boundary is never far below. */
  lemma {:induction false} BoundaryNear(s: bytes, i: nat)
    requires Utf8(s) && i <= |s|
    ensures exists j :: 0 <= j <= i <= j + 3 && Boundary(s, j)
    decreases |s|
  {
    var n := CharLen(s);
    if s == [] || i < n {
      assert Boundary(s, 0);
    } else {
      BoundaryNear(s[n..], i - n);
      var j :| 0 <= j <= i - n <= j + 3 && Boundary(s[n..], j);
      if j == 0 && n < |s| {
        assert CharLen(s[n..]) > 0 && s[n..][0] == s[n];
      }
      assert Boundary(s, n + j);
    }
  }
}

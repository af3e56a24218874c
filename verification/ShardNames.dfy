/** Names of split model files: reading a shard suffix, and naming every shard from
    the first. */
module ShardNames {
  import opened Decimal
  import opened Sorting
  import opened Text

  const OF := "-of-"
  const GGUF := ".gguf"
  const U32_LIMIT: nat := 0x1_0000_0000
  const MAX_SHARD_COUNT: nat := 1024

  // ----- searching from the end -----

  function LastUpTo<T(==)>(hay: seq<T>, needle: seq<T>, end: int): (r: Option<nat>)
    ensures r.Some? ==> r.value <= end && At(hay, needle, r.value)
    decreases end + 1
  {
    if end < 0 then None else if At(hay, needle, end) then Some(end) else LastUpTo(hay, needle, end - 1)
  }

  /** The last occurrence of `needle`. */
  function FindLast<T(==)>(hay: seq<T>, needle: seq<T>): (r: Option<nat>)
    ensures r.Some? ==> At(hay, needle, r.value)
  {
    LastUpTo(hay, needle, |hay| - |needle|)
  }

  lemma {:induction false} LastUpToIs<T>(hay: seq<T>, needle: seq<T>, i: nat, end: int)
    requires i <= end && At(hay, needle, i) && forall k :: i < k <= end ==> !At(hay, needle, k)
    ensures LastUpTo(hay, needle, end) == Some(i)
    decreases end
  {
    if i < end { LastUpToIs(hay, needle, i, end - 1); }
  }

  lemma FindLastIs<T>(hay: seq<T>, needle: seq<T>, i: nat)
    requires At(hay, needle, i) && forall k :: i < k ==> !At(hay, needle, k)
    ensures FindLast(hay, needle) == Some(i)
  {
    LastUpToIs(hay, needle, i, |hay| - |needle|);
  }

  // ----- the parts of a name -----

  datatype Shard = Shard(index: nat, total: nat)

  datatype Parts = Parts(base: string, shard: Option<Shard>)

  predicate AllDigits(s: string) { s != [] && forall c <- s :: IsDigit(c) }

  function ParseU32(s: string): Option<nat>
    requires AllDigits(s)
  {
    if Value(s) < U32_LIMIT then Some(Value(s)) else None
  }

  function OrZero(n: Option<nat>): nat { if n.Some? then n.value else 0 }

  /** Where a suffix `-<digits>-of-<digits>` stands: its dash and its `-of-`. */
  datatype Place = Place(dash: nat, of: nat)

  predicate Fits(stem: string, at: Place) {
    At(stem, OF, at.of) && at.dash < at.of && At(stem[..at.of], "-", at.dash) &&
    AllDigits(stem[..at.of][at.dash + 1..]) && AllDigits(stem[at.of + |OF|..])
  }

  function SuffixAt(stem: string): (at: Option<Place>)
    ensures at.Some? ==> Fits(stem, at.value)
  {
    var of := FindLast(stem, OF);
    if of.None? then None else
    var dash := FindLast(stem[..of.value], "-");
    if dash.None? then None else
    var at := Place(dash.value, of.value);
    if AllDigits(stem[..at.of][at.dash + 1..]) && AllDigits(stem[at.of + |OF|..]) then Some(at) else None
  }

  function IndexText(stem: string, at: Place): (s: string)
    requires Fits(stem, at)
    ensures AllDigits(s)
  {
    stem[..at.of][at.dash + 1..]
  }

  function TotalText(stem: string, at: Place): (s: string)
    requires Fits(stem, at)
    ensures AllDigits(s)
  {
    stem[at.of + |OF|..]
  }

  function SplitShard(stem: string): Parts {
    var at := SuffixAt(stem);
    if at.None? then Parts(stem, None)
    else
      Parts(stem[..at.value.of][..at.value.dash],
            Some(Shard(OrZero(ParseU32(IndexText(stem, at.value))), OrZero(ParseU32(TotalText(stem, at.value))))))
  }

  function StripGguf(s: string): Option<string> {
    if |s| >= |GGUF| && s[|s| - |GGUF|..] == GGUF then Some(s[..|s| - |GGUF|]) else None
  }

  /** The lower-cased stem without its shard suffix, and what the suffix says. */
  function ShardParts(name: string): Parts {
    SplitShard(OrElse(StripGguf(Lower(name)), Lower(name)))
  }

  lemma OneOf(s: string, k: int)
    requires AllDigits(s) && k > 0
    ensures !At(OF + s, OF, k)
  {
    var t := OF + s;
    AtByte(t, OF, k, 0);
    AtByte(t, OF, k, 1);
    if 4 <= k < |t| {
      assert t[k] == s[k - 4] && s[k - 4] in s;
    } else if k == 3 {
      assert t[4] == s[0] && s[0] in s;
    }
  }

  /** Digits hide no later `-of-`. */
  lemma LastOf(front: string, s: string)
    requires AllDigits(s)
    ensures FindLast(front + (OF + s), OF) == Some(|front|)
  {
    var t := front + (OF + s);
    forall k | |front| < k ensures !At(t, OF, k) {
      AtSuffix(front, OF + s, OF, k);
      OneOf(s, k - |front|);
    }
    AtSuffix(front, OF + s, OF, |front|);
    assert (OF + s)[..|OF|] == OF;
    FindLastIs(t, OF, |front|);
  }

  lemma LastDash(front: string, s: string)
    requires AllDigits(s)
    ensures FindLast(front + ("-" + s), "-") == Some(|front|)
  {
    var tail := "-" + s;
    var t := front + tail;
    forall k | |front| < k ensures !At(t, "-", k) {
      var j := k - |front|;
      AtSuffix(front, tail, "-", k);
      AtByte(tail, "-", j, 0);
      if j < |tail| {
        assert tail[j] == s[j - 1] && s[j - 1] in s;
      }
    }
    AtSuffix(front, tail, "-", |front|);
    assert tail[..1] == "-";
    FindLastIs(t, "-", |front|);
  }

  lemma Halves<T>(a: seq<T>, b: seq<T>)
    ensures (a + b)[..|a|] == a && (a + b)[|a|..] == b
  {
  }

  lemma Around(s: string, needle: string, i: nat)
    requires At(s, needle, i)
    ensures s == s[..i] + (needle + s[i + |needle|..])
  {
  }

  /** A shard suffix reads back, whatever stands before it. */
  lemma SuffixReads(base: string, index: string, total: string)
    requires AllDigits(index) && AllDigits(total)
    ensures SplitShard(base + (("-" + index) + (OF + total))) ==
            Parts(base, Some(Shard(OrZero(ParseU32(index)), OrZero(ParseU32(total)))))
  {
    var before := base + ("-" + index);
    var stem := before + (OF + total);
    Assoc(base, "-" + index, OF + total);
    LastOf(before, total);
    Halves(before, OF + total);
    Assoc(before, OF, total);
    Halves(before + OF, total);
    LastDash(base, index);
    Halves(base, "-" + index);
    Assoc(base, "-", index);
    Halves(base + "-", index);
  }

  lemma AroundPlace(stem: string, at: Place)
    requires Fits(stem, at)
    ensures stem == stem[..at.of][..at.dash] + (("-" + IndexText(stem, at)) + (OF + TotalText(stem, at)))
  {
    Around(stem, OF, at.of);
    Around(stem[..at.of], "-", at.dash);
    Assoc(stem[..at.of][..at.dash], "-" + IndexText(stem, at), OF + TotalText(stem, at));
  }

  /** And only a shard suffix is read as one. */
  lemma SuffixOnly(stem: string) returns (index: string, total: string)
    requires SplitShard(stem).shard.Some?
    ensures AllDigits(index) && AllDigits(total)
    ensures stem == SplitShard(stem).base + (("-" + index) + (OF + total))
  {
    var at := SuffixAt(stem).value;
    AroundPlace(stem, at);
    index, total := IndexText(stem, at), TotalText(stem, at);
  }

  // ----- naming every shard -----

  function Zeros(n: nat): string { seq(n, _ => '0') }

  /** Decimal, zero-padded to the width. */
  function Pad(n: nat, width: nat): string {
    Zeros(if width > |Digits(n)| then width - |Digits(n)| else 0) + Digits(n)
  }

  function ShardFiles(primary: string): seq<string> {
    var stem := StripGguf(Lower(primary));
    if stem.None? then [primary] else
    var at := SuffixAt(stem.value);
    if at.None? then [primary]
    else
      Expand(primary, primary[..at.value.dash + 1], primary[at.value.of..],
             IndexText(stem.value, at.value), TotalText(stem.value, at.value))
  }

  function Expand(primary: string, prefix: string, suffix: string, index: string, total: string): seq<string>
    requires AllDigits(index) && AllDigits(total)
  {
    if ParseU32(index) != Some(1) || ParseU32(total).None? then [primary] else
    var count := ParseU32(total).value;
    if !(2 <= count <= MAX_SHARD_COUNT) then [primary] else NameAll(prefix, suffix, |index|, count)
  }

  function NameAll(prefix: string, suffix: string, width: nat, count: nat): seq<string> {
    seq(count, k requires 0 <= k < count => prefix + Pad(k + 1, width) + suffix)
  }

  /** The name is a first shard of a set of reasonable size. */
  predicate Primary(name: string) {
    StripGguf(Lower(name)).Some? && ShardParts(name).shard.Some? &&
    ShardParts(name).shard.value.index == 1 && 2 <= ShardParts(name).shard.value.total <= MAX_SHARD_COUNT
  }

  lemma {:induction false} ValueOfZeros(n: nat, s: string)
    requires AllDigits(s)
    ensures AllDigits(Zeros(n) + s) && Value(Zeros(n) + s) == Value(s)
    decreases |s|
  {
    var t := Zeros(n) + s;
    assert t[..|t| - 1] == Zeros(n) + s[..|s| - 1];
    if |s| == 1 {
      AppendEmpty(Zeros(n), s[..0]);
      OnlyZeros(n);
    } else {
      ValueOfZeros(n, s[..|s| - 1]);
    }
  }

  lemma {:induction false} OnlyZeros(n: nat)
    ensures Value(Zeros(n)) == 0
  {
    if n > 0 {
      assert Zeros(n)[..n - 1] == Zeros(n - 1);
      OnlyZeros(n - 1);
    }
  }

  lemma PadReads(n: nat, width: nat)
    ensures AllDigits(Pad(n, width)) && Value(Pad(n, width)) == n
  {
    ValueOfDigits(n);
    ValueOfZeros(if width > |Digits(n)| then width - |Digits(n)| else 0, Digits(n));
  }

  lemma {:induction false} ZeroIsZeros(s: string)
    requires (forall c <- s :: IsDigit(c)) && Value(s) == 0
    ensures s == Zeros(|s|)
  {
    if s != [] {
      var last := s[|s| - 1];
      assert last in s;
      ZeroIsZeros(s[..|s| - 1]);
      assert ValueOf(last) == 0;
      assert s == s[..|s| - 1] + [last];
    }
  }

  lemma OneEndsInOne(s: string)
    requires AllDigits(s) && Value(s) == 1
    ensures Value(s[..|s| - 1]) == 0 && s[|s| - 1] == '1'
  {
    var last := s[|s| - 1];
    assert last in s;
    assert 10 * Value(s[..|s| - 1]) + ValueOf(last) == 1;
    assert ValueOf(last) == 1;
  }

  lemma PadOf(n: nat, width: nat, digits: string)
    requires Digits(n) == digits && |digits| <= width
    ensures Pad(n, width) == Zeros(width - |digits|) + digits
  {
  }

  /** A first shard's number is its own padding of 1. */
  lemma PadOne(s: string)
    requires AllDigits(s) && Value(s) == 1
    ensures Pad(1, |s|) == s
  {
    var front, one := s[..|s| - 1], "1";
    OneEndsInOne(s);
    ZeroIsZeros(front);
    PadOf(1, |s|, one);
    assert s == front + one;
  }

  lemma LowerPlus(a: string, b: string)
    ensures Lower(a + b) == Lower(a) + Lower(b)
  {
  }

  lemma LowerDigits(s: string)
    ensures (forall c <- s :: IsDigit(c)) ==> Lower(s) == s
    ensures (forall c <- Lower(s) :: IsDigit(c)) ==> s == Lower(s)
  {
    if forall c <- s :: IsDigit(c) {
      forall i | 0 <= i < |s| ensures s[i] == Lower(s)[i] {
        assert s[i] in s;
      }
    }
    if forall c <- Lower(s) :: IsDigit(c) {
      forall i | 0 <= i < |s| ensures s[i] == Lower(s)[i] {
        assert Lower(s)[i] in Lower(s);
      }
    }
  }

  lemma Stripped(s: string)
    ensures StripGguf(s + GGUF) == Some(s)
  {
    assert (s + GGUF)[|s|..] == GGUF;
  }

  lemma StripIs(s: string)
    requires StripGguf(s).Some?
    ensures s == StripGguf(s).value + GGUF
  {
  }

  lemma LowerSlice(s: string, i: nat, j: nat)
    requires i <= j <= |s|
    ensures Lower(s[i..j]) == Lower(s)[i..j]
  {
  }

  lemma Cut(stem: string, at: Place)
    requires Fits(stem, at)
    ensures var lower := stem + GGUF;
            lower[..at.dash + 1] == stem[..at.of][..at.dash] + "-" &&
            lower[at.dash + 1..at.of] == IndexText(stem, at) &&
            lower[at.of..] == OF + TotalText(stem, at) + GGUF
  {
    Around(stem, OF, at.of);
    Around(stem[..at.of], "-", at.dash);
  }

  lemma CutLower(name: string, stem: string, at: Place)
    requires Lower(name) == stem + GGUF && Fits(stem, at)
    ensures Lower(name[..at.dash + 1]) == stem[..at.of][..at.dash] + "-"
    ensures Lower(name[at.dash + 1..at.of]) == IndexText(stem, at)
    ensures Lower(name[at.of..]) == OF + TotalText(stem, at) + GGUF
  {
    Cut(stem, at);
    LowerSlice(name, 0, at.dash + 1);
    LowerSlice(name, at.dash + 1, at.of);
    LowerSlice(name, at.of, |name|);
  }

  /** How a name with a shard suffix is taken apart, and what it expands to. */
  lemma Anatomy(name: string) returns (prefix: string, index: string, total: string, suffix: string, base: string)
    requires StripGguf(Lower(name)).Some? && ShardParts(name).shard.Some?
    ensures name == prefix + index + suffix
    ensures Lower(prefix) == base + "-" && Lower(suffix) == OF + total + GGUF
    ensures AllDigits(index) && AllDigits(total)
    ensures ShardParts(name) == Parts(base, Some(Shard(OrZero(ParseU32(index)), OrZero(ParseU32(total)))))
    ensures ShardFiles(name) == Expand(name, prefix, suffix, index, total)
  {
    var stem := StripGguf(Lower(name)).value;
    var at := SuffixAt(stem).value;
    StripIs(Lower(name));
    CutLower(name, stem, at);
    prefix, suffix := name[..at.dash + 1], name[at.of..];
    index, total, base := IndexText(stem, at), TotalText(stem, at), stem[..at.of][..at.dash];
    LowerDigits(name[at.dash + 1..at.of]);
  }

  /** Any other name stands for itself alone. */
  lemma NotExpanded(name: string)
    requires !Primary(name)
    ensures ShardFiles(name) == [name]
  {
    if StripGguf(Lower(name)).Some? && ShardParts(name).shard.Some? {
      var prefix, index, total, suffix, base := Anatomy(name);
    }
  }

  lemma NameReads(prefix: string, pad: string, suffix: string, base: string, total: string)
    requires Lower(prefix) == base + "-" && Lower(suffix) == OF + total + GGUF
    requires AllDigits(pad) && AllDigits(total)
    ensures ShardParts(prefix + pad + suffix) ==
            Parts(base, Some(Shard(OrZero(ParseU32(pad)), OrZero(ParseU32(total)))))
  {
    var stem := base + (("-" + pad) + (OF + total));
    calc {
      Lower(prefix + pad + suffix);
      { LowerPlus(prefix + pad, suffix); LowerPlus(prefix, pad); LowerDigits(pad); }
      ((base + "-") + pad) + ((OF + total) + GGUF);
      { Assoc(base, "-", pad); Assoc(base + ("-" + pad), OF + total, GGUF); Assoc(base, "-" + pad, OF + total); }
      stem + GGUF;
    }
    Stripped(stem);
    SuffixReads(base, pad, total);
  }

  lemma Parsed(s: string, n: nat)
    requires AllDigits(s) && Value(s) == n <= MAX_SHARD_COUNT
    ensures OrZero(ParseU32(s)) == n
  {
  }

  lemma AllNamesRead(prefix: string, suffix: string, width: nat, base: string, total: string, count: nat, k: nat)
    requires Lower(prefix) == base + "-" && Lower(suffix) == OF + total + GGUF && AllDigits(total)
    requires k < Value(total) == count <= MAX_SHARD_COUNT
    ensures ShardParts(NameAll(prefix, suffix, width, count)[k]) == Parts(base, Some(Shard(k + 1, count)))
  {
    var pad := Pad(k + 1, width);
    PadReads(k + 1, width);
    Parsed(pad, k + 1);
    Parsed(total, count);
    NameReads(prefix, pad, suffix, base, total);
    assert NameAll(prefix, suffix, width, count)[k] == prefix + pad + suffix;
  }

  /** The name of each shard reads as that shard of the same set. */
  lemma {:induction false} ShardReads(name: string, k: nat)
    requires Primary(name) && k < ShardParts(name).shard.value.total
    ensures |ShardFiles(name)| == ShardParts(name).shard.value.total
    ensures ShardParts(ShardFiles(name)[k]) ==
            Parts(ShardParts(name).base, Some(Shard(k + 1, ShardParts(name).shard.value.total)))
  {
    var prefix, index, total, suffix, base := Anatomy(name);
    AllNamesRead(prefix, suffix, |index|, base, total, Value(total), k);
  }

  lemma {:induction false} FirstShard(name: string)
    requires Primary(name)
    ensures ShardFiles(name)[0] == name
  {
    var prefix, index, total, suffix, base := Anatomy(name);
    PadOne(index);
  }

  // ----- complete sets -----

  /** One unsplit file, or exactly the shards `1..=n` of a set of `n`. */
  ghost predicate Whole(shards: seq<Option<Shard>>) {
    shards == [None] || (shards != [] && HasAll(shards, |shards|, |shards|))
  }

  ghost predicate HasAll(shards: seq<Option<Shard>>, n: nat, total: nat) {
    forall i :: 1 <= i <= n ==> Some(Shard(i, total)) in shards
  }

  function Self(n: nat): nat { n }

  /** Ascending order. */
  function Sort(s: seq<nat>): seq<nat> { SortBy(Self, s) }

  ghost predicate Ascending(s: seq<nat>) { AscendingBy(Self, s) }

  lemma SortKeeps(s: seq<nat>)
    ensures Ascending(Sort(s)) && |Sort(s)| == |s|
    ensures forall y :: y in Sort(s) <==> y in s
  {
    SortOrders(Self, s);
    assert |Sort(s)| == |multiset(Sort(s))| == |multiset(s)|;
    assert forall y :: y in Sort(s) <==> y in multiset(Sort(s));
  }

  function OneTo(n: nat): seq<nat> { seq(n, k requires 0 <= k => k + 1) }

  /** There is only one way to put the numbers `1..=n` into `n` places in order. */
  lemma {:induction false} AscendingFull(s: seq<nat>)
    requires Ascending(s) && forall i :: 1 <= i <= |s| ==> i in s
    ensures s == OneTo(|s|)
  {
    if s != [] {
      var n := |s|;
      var front, last := s[..n - 1], s[n - 1];
      assert s == front + [last];
      assert n in s;
      assert last >= n;
      forall i | 1 <= i <= n - 1 ensures i in front { assert i in s; }
      AscendingFull(front);
      assert n !in front;
    }
  }

  /** `n` places that hold the shards `1..=n` hold nothing else. */
  lemma {:induction false} NothingElse(shards: seq<Option<Shard>>, n: nat, total: nat)
    requires |shards| == n && HasAll(shards, n, total)
    ensures forall s <- shards :: s.Some? && s.value.total == total
  {
    if n > 0 {
      var last := Some(Shard(n, total));
      assert last in shards;
      var p :| 0 <= p < n && shards[p] == last;
      var rest := shards[..p] + shards[p + 1..];
      assert shards == shards[..p] + [last] + shards[p + 1..];
      forall i | 1 <= i <= n - 1 ensures Some(Shard(i, total)) in rest {
        assert Some(Shard(i, total)) in shards;
      }
      NothingElse(rest, n - 1, total);
      forall s | s in shards ensures s.Some? && s.value.total == total {
        assert s == last || s in rest;
      }
    }
  }

  function IndexOf(shard: Option<Shard>): nat { if shard.Some? then shard.value.index else 0 }

  function Indexes(shards: seq<Option<Shard>>): seq<nat> { Map(IndexOf, shards) }

  lemma SortedIsWhole(shards: seq<Option<Shard>>, total: nat)
    requires shards != [] && forall s <- shards :: s.Some? && s.value.total == total
    ensures Sort(Indexes(shards)) == OneTo(total) <==> Whole(shards)
  {
    var indexes := Indexes(shards);
    SortKeeps(indexes);
    if Sort(indexes) == OneTo(total) {
      assert |shards| == total;
      forall i | 1 <= i <= total ensures Some(Shard(i, total)) in shards {
        assert OneTo(total)[i - 1] == i;
        assert i in indexes;
        var k :| 0 <= k < |indexes| && indexes[k] == i;
        assert indexes[k] == IndexOf(shards[k]);
        assert shards[k] in shards;
      }
    }
    if Whole(shards) {
      var n := |shards|;
      assert shards[0] in shards;
      NothingElse(shards, n, n);
      assert total == n;
      forall i | 1 <= i <= n ensures i in Sort(indexes) {
        assert Some(Shard(i, n)) in shards;
        var k :| 0 <= k < n && shards[k] == Some(Shard(i, n));
        assert indexes[k] == IndexOf(shards[k]);
      }
      AscendingFull(Sort(indexes));
    }
  }

  lemma WholeIsUniform(shards: seq<Option<Shard>>)
    ensures Whole(shards) && shards != [None] ==> forall s <- shards :: s.Some? && s.value.total == |shards|
  {
    if Whole(shards) && shards != [None] {
      NothingElse(shards, |shards|, |shards|);
    }
  }

  /** Every shard must name the first one's total, and the sorted indexes must be `1..=total`. */
  method IsCompleteSet(shards: seq<Option<Shard>>) returns (complete: bool)
    ensures complete <==> Whole(shards)
  {
    if shards == [None] {
      return true;
    }
    WholeIsUniform(shards);
    assert shards != [] ==> shards[0] in shards;
    if shards == [] || shards[0].None? {
      return false;
    }
    var total := shards[0].value.total;
    var indexes: seq<nat> := [];
    for n := 0 to |shards|
      invariant forall s <- shards[..n] :: s.Some? && s.value.total == total
      invariant indexes == Indexes(shards[..n])
    {
      assert shards[n] in shards;
      if shards[n].None? || shards[n].value.total != total {
        return false;
      }
      assert shards[..n + 1] == shards[..n] + [shards[n]];
      MapAppend(IndexOf, shards[..n], [shards[n]]);
      MapOne(IndexOf, shards[n]);
      indexes := indexes + [shards[n].value.index];
    }
    assert shards[..|shards|] == shards;
    SortedIsWhole(shards, total);
    complete := Sort(indexes) == OneTo(total);
  }

  function ShardOf(name: string): Option<Shard> { ShardParts(name).shard }

  lemma {:induction false} FilesOfPrimary(name: string)
    requires Primary(name)
    ensures |ShardFiles(name)| == ShardParts(name).shard.value.total
    ensures forall k :: 0 <= k < |ShardFiles(name)| ==>
              ShardOf(ShardFiles(name)[k]) == Some(Shard(k + 1, |ShardFiles(name)|))
  {
    var files, total := ShardFiles(name), ShardParts(name).shard.value.total;
    ShardReads(name, 0);
    forall k | 0 <= k < total ensures ShardOf(files[k]) == Some(Shard(k + 1, total)) {
      ShardReads(name, k);
    }
  }

  lemma CountedIsWhole(names: seq<string>)
    requires names != [] && forall k :: 0 <= k < |names| ==> ShardOf(names[k]) == Some(Shard(k + 1, |names|))
    ensures Whole(Map(ShardOf, names))
    ensures forall i, j :: 0 <= i < j < |names| ==> names[i] != names[j]
  {
    var shards := Map(ShardOf, names);
    forall i | 1 <= i <= |names| ensures Some(Shard(i, |names|)) in shards {
      assert shards[i - 1] == ShardOf(names[i - 1]);
    }
    forall i, j | 0 <= i < j < |names| ensures names[i] != names[j] {
      assert ShardOf(names[i]) != ShardOf(names[j]);
    }
  }

  /** The names a first shard expands to are a complete set, itself first, each a
      different file; no other name expands. */
  lemma {:induction false} ShardFilesAreWhole(name: string)
    ensures Primary(name) <==> |ShardFiles(name)| > 1
    ensures |ShardFiles(name)| > 0 && ShardFiles(name)[0] == name
    ensures Primary(name) ==> Whole(Map(ShardOf, ShardFiles(name)))
    ensures forall i, j :: 0 <= i < j < |ShardFiles(name)| ==> ShardFiles(name)[i] != ShardFiles(name)[j]
  {
    if Primary(name) {
      FilesOfPrimary(name);
      CountedIsWhole(ShardFiles(name));
      FirstShard(name);
    } else {
      NotExpanded(name);
    }
  }

  // ----- how the names are written -----

  /** A numeral at least so wide, with leading zeros only up to that width. */
  predicate Numeral(text: string, n: nat, width: nat) {
    AllDigits(text) && Value(text) == n && |text| >= width && (text[0] == '0' ==> |text| == width)
  }

  lemma PadIsNumeral(n: nat, width: nat)
    requires n > 0
    ensures Numeral(Pad(n, width), n, width)
    ensures |Pad(n, width)| == if width > |Digits(n)| then width else |Digits(n)|
  {
    PadReads(n, width);
    DigitsGrow(n, n);
  }

  /** `other` is shard `k` named after `prefix`, `suffix` and a number so wide. */
  ghost predicate Written(other: string, prefix: string, suffix: string, k: nat, width: nat) {
    exists text :: Numeral(text, k, width) && other == prefix + text + suffix
  }

  lemma NameIsWritten(prefix: string, suffix: string, width: nat, count: nat, k: nat)
    requires k < count
    ensures Written(NameAll(prefix, suffix, width, count)[k], prefix, suffix, k + 1, width)
    ensures |Digits(count)| <= width ==>
              |NameAll(prefix, suffix, width, count)[k]| == |prefix| + width + |suffix|
  {
    hide Numeral, Pad;
    PadIsNumeral(k + 1, width);
    DigitsGrow(k + 1, count);
    assert NameAll(prefix, suffix, width, count)[k] == prefix + Pad(k + 1, width) + suffix;
  }

  lemma SuffixStarts(suffix: string, total: string)
    requires Lower(suffix) == OF + total + GGUF
    ensures OF <= Lower(suffix)
  {
    Assoc(OF, total, GGUF);
  }

  /** Every shard's file is the first one's name, case and all, with another number in
      the place of its own: as wide, and wider only when it must be. */
  lemma NamesAreWritten(name: string) returns (prefix: string, index: string, suffix: string)
    requires Primary(name)
    ensures name == prefix + index + suffix && AllDigits(index) && Value(index) == 1
    ensures Lower(prefix) == ShardParts(name).base + "-" && OF <= Lower(suffix)
    ensures forall k :: 0 <= k < |ShardFiles(name)| ==>
              Written(ShardFiles(name)[k], prefix, suffix, k + 1, |index|)
    ensures |Digits(ShardParts(name).shard.value.total)| <= |index| ==>
              forall k :: 0 <= k < |ShardFiles(name)| ==> |ShardFiles(name)[k]| == |name|
  {
    hide Written;
    var total, base;
    prefix, index, total, suffix, base := Anatomy(name);
    SuffixStarts(suffix, total);
    forall k | 0 <= k < |ShardFiles(name)|
      ensures Written(ShardFiles(name)[k], prefix, suffix, k + 1, |index|)
      ensures |Digits(Value(total))| <= |index| ==> |ShardFiles(name)[k]| == |name|
    {
      NameIsWritten(prefix, suffix, |index|, Value(total), k);
    }
  }

  /** A numeral is fixed by its number and its width. */
  lemma NumeralIsPad(text: string, n: nat, width: nat)
    requires n > 0 && Numeral(text, n, width)
    ensures text == Pad(n, width)
  {
    PadIsNumeral(n, width);
    NumeralUnique(text, Pad(n, width), n, width);
  }

  lemma LastChar(s: string)
    requires AllDigits(s)
    ensures IsDigit(s[|s| - 1]) && forall c <- s[..|s| - 1] :: IsDigit(c)
    ensures s == s[..|s| - 1] + [s[|s| - 1]]
  {
    assert s[|s| - 1] in s;
  }

  lemma DigitBelowTen(c: char)
    requires IsDigit(c)
    ensures ValueOf(c) < 10
  {
  }

  lemma LastDigit(s: string)
    requires AllDigits(s)
    ensures IsDigit(s[|s| - 1]) && (forall c <- s[..|s| - 1] :: IsDigit(c))
    ensures Value(s) == 10 * Value(s[..|s| - 1]) + ValueOf(s[|s| - 1])
  {
    LastChar(s);
  }

  lemma TenFold(v: nat, d: nat, w: nat, e: nat)
    requires 10 * v + d == 10 * w + e && d < 10 && e < 10
    ensures v == w && d == e
  {
  }

  lemma SameDigit(c: char, d: char)
    requires IsDigit(c) && IsDigit(d) && ValueOf(c) == ValueOf(d)
    ensures c == d
  {
  }

  lemma {:induction false} SameWidth(a: string, b: string)
    requires |a| == |b| && (forall c <- a :: IsDigit(c)) && (forall c <- b :: IsDigit(c)) && Value(a) == Value(b)
    ensures a == b
  {
    if a != [] {
      hide Value, ValueOf, IsDigit;
      var x, y := a[|a| - 1], b[|b| - 1];
      LastChar(a);
      LastChar(b);
      LastDigit(a);
      LastDigit(b);
      DigitBelowTen(x);
      DigitBelowTen(y);
      TenFold(Value(a[..|a| - 1]), ValueOf(x), Value(b[..|b| - 1]), ValueOf(y));
      SameDigit(x, y);
      SameWidth(a[..|a| - 1], b[..|b| - 1]);
    }
  }

  /** Without a leading zero the width is the number's own. */
  lemma {:induction false} WidthOfValue(s: string)
    requires AllDigits(s) && s[0] != '0'
    ensures |Digits(Value(s))| == |s| && Value(s) > 0
  {
    var front, last := s[..|s| - 1], s[|s| - 1];
    assert last in s;
    if |s| == 1 {
      assert Value(front) == 0;
    } else {
      assert front[0] == s[0];
      WidthOfValue(front);
      assert Value(s) / 10 == Value(front);
    }
  }

  lemma NumeralWidth(text: string, n: nat, width: nat)
    requires n > 0 && Numeral(text, n, width)
    ensures |text| == if width > |Digits(n)| then width else |Digits(n)|
  {
    if text[0] != '0' {
      WidthOfValue(text);
    } else {
      LeadingZero(text);
    }
  }

  /** With one the number is shorter than its text. */
  lemma {:induction false} LeadingZero(s: string)
    requires AllDigits(s) && s[0] == '0'
    ensures Value(s) > 0 ==> |Digits(Value(s))| < |s|
  {
    var front, last := s[..|s| - 1], s[|s| - 1];
    assert last in s;
    if |s| == 1 {
      assert Value(s) == ValueOf(last) == 0;
    } else {
      assert front[0] == s[0];
      assert Value(s) / 10 == Value(front);
      LeadingZero(front);
    }
  }

  lemma NumeralUnique(a: string, b: string, n: nat, width: nat)
    requires n > 0 && Numeral(a, n, width) && Numeral(b, n, width)
    ensures a == b
  {
    NumeralWidth(a, n, width);
    NumeralWidth(b, n, width);
    SameWidth(a, b);
  }
}
/** Which arguments of a server launch the memory fitter is shown. The filter
    works token by token; here it is shown to be a filter on whole options. */
module FitArgs {
  import opened Decimal
  import opened Text

  /** An option rather than a value; a negative number is a value. */
  predicate IsFlag(token: string) {
    |token| > 1 && token[0] == '-' && (token[1] == '-' || IsLetter(token[1]))
  }

  datatype Tables = Tables(withValue: seq<string>, switches: seq<string>, placement: seq<string>)

  const SHORT_OPTIONS := ["-m", "-c", "-np", "-ctk", "-ctv", "-fa", "-ub", "-b", "-lm", "-lzm", "-sm", "-ts", "-mg"]

  const LONG_OPTIONS := [
    "--model", "--ctx-size", "--parallel", "--cache-type-k", "--cache-type-v", "--flash-attn", "--ubatch-size",
    "--batch-size", "--load-mode", "--lazy-mode", "--split-mode", "--tensor-split", "--main-gpu"]

  const FITTER := Tables(
    SHORT_OPTIONS + LONG_OPTIONS,
    ["--swa-full", "--no-mmap", "--mlock", "-kvu", "--kv-unified", "-nkvo", "--no-kv-offload"],
    ["-ngl", "--gpu-layers", "--n-gpu-layers", "-ncmoe", "--n-cpu-moe", "-ot", "--override-tensor"])

  const TARGET := "--fit-target"

  // ----- the filter on tokens -----

  /** How many tokens a dropped option takes with it. */
  function Skip(t: seq<string>): (n: nat)
    requires t != []
    ensures 1 <= n <= |t|
  {
    if |t| > 1 && !IsFlag(t[1]) then 2 else 1
  }

  function Fitted(k: Tables, t: seq<string>): seq<string> {
    if t == [] then []
    else if t[0] in k.withValue then
      if |t| > 1 then [t[0], t[1]] + Fitted(k, t[2..]) else [t[0]]
    else if t[0] in k.switches then [t[0]] + Fitted(k, t[1..])
    else if IsFlag(t[0]) || t[0] in k.placement then Fitted(k, t[Skip(t)..])
    else Fitted(k, t[1..])
  }

  function FitParams(t: seq<string>, margin: nat): seq<string> {
    Fitted(FITTER, t) + [TARGET, Digits(margin)]
  }

  method FitParamsArgs(argv: seq<string>, margin: nat) returns (out: seq<string>)
    ensures out == FitParams(argv, margin)
  {
    hide IsFlag;
    out := [];
    var n := 0;
    assert argv[0..] == argv;
    while n < |argv|
      invariant n <= |argv|
      invariant out + Fitted(FITTER, argv[n..]) == Fitted(FITTER, argv)
    {
      var flag := argv[n];
      ghost var t := argv[n..];
      assert forall i :: 0 <= i <= |argv| - n ==> t[i..] == argv[n + i..];
      n := n + 1;
      if flag in FITTER.withValue {
        out := out + [flag];
        if n < |argv| {
          out := out + [argv[n]];
          n := n + 1;
        }
      } else if flag in FITTER.switches {
        out := out + [flag];
      } else if IsFlag(flag) || flag in FITTER.placement {
        if n < |argv| && !IsFlag(argv[n]) {
          n := n + 1;
        }
      }
    }
    out := out + [TARGET, Digits(margin)];
  }

  // ----- the filter on options -----

  /** One option of an argument list, with the value it takes. */
  datatype Item =
    | Kept(flag: string, value: string)
    | Lone(flag: string)
    | Switch(flag: string)
    | Dropped(flag: string, argument: Option<string>)
    | Stray(token: string)

  function Tokens(item: Item): seq<string> {
    match item
    case Kept(flag, value) => [flag, value]
    case Lone(flag) => [flag]
    case Switch(flag) => [flag]
    case Dropped(flag, argument) => if argument.Some? then [flag, argument.value] else [flag]
    case Stray(token) => [token]
  }

  function Flatten(items: seq<Item>): seq<string> { FlatMap(Tokens, items) }

  predicate Shapes(item: Item) { item.Kept? || item.Lone? || item.Switch? }

  /** The options that shape memory. */
  function Memory(items: seq<Item>): seq<Item> {
    if items == [] then []
    else (if Shapes(items[0]) then [items[0]] else []) + Memory(items[1..])
  }

  /** How an argument list reads. */
  function Head(k: Tables, t: seq<string>): (item: Item)
    requires t != []
    ensures Tokens(item) <= t
  {
    if t[0] in k.withValue then
      if |t| > 1 then Kept(t[0], t[1]) else Lone(t[0])
    else if t[0] in k.switches then Switch(t[0])
    else if IsFlag(t[0]) || t[0] in k.placement then Dropped(t[0], if Skip(t) == 2 then Some(t[1]) else None)
    else Stray(t[0])
  }

  function Parse(k: Tables, t: seq<string>): seq<Item> {
    if t == [] then [] else [Head(k, t)] + Parse(k, t[|Tokens(Head(k, t))|..])
  }

  lemma FlattenCons(item: Item, items: seq<Item>)
    ensures Flatten([item] + items) == Tokens(item) + Flatten(items)
  {
    FlatMapCons(Tokens, item, items);
  }

  lemma Peel(t: seq<string>, front: seq<string>)
    requires front <= t
    ensures front + t[|front|..] == t
  {
  }

  /** Reading loses nothing. */
  lemma {:induction false} FlattenParse(k: Tables, t: seq<string>)
    ensures Flatten(Parse(k, t)) == t
  {
    if t != [] {
      var item := Head(k, t);
      var rest := t[|Tokens(item)|..];
      FlattenParse(k, rest);
      FlattenCons(item, Parse(k, rest));
      Peel(t, Tokens(item));
    }
  }

  lemma MemoryCons(item: Item, items: seq<Item>)
    ensures Memory([item] + items) == (if Shapes(item) then [item] else []) + Memory(items)
  {
    assert ([item] + items)[1..] == items;
  }

  /** For every argument list the token filter keeps exactly the options that shape memory. */
  lemma {:induction false} FilterKeepsMemory(k: Tables, t: seq<string>)
    ensures Fitted(k, t) == Flatten(Memory(Parse(k, t)))
  {
    if t != [] {
      var item := Head(k, t);
      var rest := t[|Tokens(item)|..];
      FilterKeepsMemory(k, rest);
      MemoryCons(item, Parse(k, rest));
      if Shapes(item) {
        FlattenCons(item, Memory(Parse(k, rest)));
      } else {
        AppendEmpty(Memory(Parse(k, rest)), []);
      }
      assert item.Lone? ==> rest == [];
    }
  }

  // ----- which option lists an argument list can read as -----

  ghost predicate Sane(k: Tables) {
    (forall f :: f in k.withValue ==> IsFlag(f) && f !in k.switches) &&
    forall f :: f in k.switches ==> IsFlag(f)
  }

  /** An option that reads as itself when `rest` follows. */
  ghost predicate Reads(k: Tables, item: Item, rest: seq<string>) {
    match item
    case Kept(flag, _) => flag in k.withValue
    case Lone(flag) => flag in k.withValue && rest == []
    case Switch(flag) => flag in k.switches
    case Dropped(flag, argument) =>
      flag !in k.withValue && flag !in k.switches && (IsFlag(flag) || flag in k.placement) &&
      if argument.Some? then !IsFlag(argument.value) else rest == [] || IsFlag(rest[0])
    case Stray(token) =>
      token !in k.withValue && token !in k.switches && !IsFlag(token) && token !in k.placement
  }

  ghost predicate AllRead(k: Tables, items: seq<Item>, rest: seq<string>) {
    items == [] || (Reads(k, items[0], Flatten(items[1..]) + rest) && AllRead(k, items[1..], rest))
  }

  lemma HeadReads(k: Tables, item: Item, rest: seq<string>)
    requires Sane(k) && Reads(k, item, rest)
    ensures Head(k, Tokens(item) + rest) == item
  {
  }

  /** Options read back as themselves, whatever follows them. */
  lemma {:induction false} ParseFlatten(k: Tables, items: seq<Item>, rest: seq<string>)
    requires Sane(k) && AllRead(k, items, rest)
    ensures Parse(k, Flatten(items) + rest) == items + Parse(k, rest)
  {
    if items == [] {
      AppendEmpty(rest, Flatten(items));
      AppendEmpty(Parse(k, rest), items);
    } else {
      var item, more := items[0], items[1..];
      assert items == [item] + more;
      FlattenCons(item, more);
      Assoc(Tokens(item), Flatten(more), rest);
      HeadReads(k, item, Flatten(more) + rest);
      var t := Tokens(item) + (Flatten(more) + rest);
      assert t[|Tokens(item)|..] == Flatten(more) + rest;
      ParseFlatten(k, more, rest);
      Assoc([item], more, Parse(k, rest));
    }
  }

  lemma ReadsHead(k: Tables, t: seq<string>)
    requires Sane(k) && t != []
    ensures Reads(k, Head(k, t), t[|Tokens(Head(k, t))|..])
  {
  }

  /** What an argument list read as, it reads as again. */
  lemma {:induction false} ParsedReads(k: Tables, t: seq<string>)
    requires Sane(k)
    ensures AllRead(k, Parse(k, t), [])
  {
    if t != [] {
      var item := Head(k, t);
      var rest := t[|Tokens(item)|..];
      ReadsHead(k, t);
      ParsedReads(k, rest);
      FlattenParse(k, rest);
      AppendEmpty(rest, []);
      assert Parse(k, t)[1..] == Parse(k, rest);
    }
  }

  // ----- tokens that change nothing -----

  /** A token that is no memory option. */
  predicate Quiet(k: Tables, token: string) { token !in k.withValue && token !in k.switches }

  ghost predicate FlagsOnly(k: Tables) {
    Sane(k) && forall f :: f in k.placement ==> IsFlag(f)
  }

  /** Such a token is dropped, and what it might take along would have been dropped anyway. */
  lemma QuietToken(k: Tables, token: string, rest: seq<string>)
    requires FlagsOnly(k) && Quiet(k, token)
    ensures Fitted(k, [token] + rest) == Fitted(k, rest)
  {
    var t := [token] + rest;
    assert t[1..] == rest;
    if rest != [] && !IsFlag(rest[0]) {
      assert t[2..] == rest[1..];
    }
  }

  /** Tokens that are no memory options change nothing of what follows them. */
  lemma {:induction false} QuietTokens(k: Tables, t: seq<string>, rest: seq<string>)
    requires FlagsOnly(k) && forall token <- t :: Quiet(k, token)
    ensures Fitted(k, t + rest) == Fitted(k, rest)
  {
    if t == [] {
      AppendEmpty(rest, t);
    } else {
      assert t + rest == [t[0]] + (t[1..] + rest);
      QuietToken(k, t[0], t[1..] + rest);
      QuietTokens(k, t[1..], rest);
    }
  }

  /** Nothing is shown of an argument list exactly when it names no memory option, not even as a value. */
  lemma {:induction false} NothingShown(k: Tables, t: seq<string>)
    requires FlagsOnly(k)
    ensures Fitted(k, t) == [] <==> forall token <- t :: Quiet(k, token)
  {
    if t != [] && Quiet(k, t[0]) {
      assert t == [t[0]] + t[1..];
      QuietToken(k, t[0], t[1..]);
      NothingShown(k, t[1..]);
    }
  }

  // ----- what the fitter is shown -----

  /** The list ends on a memory option whose value is missing. */
  ghost predicate Dangling(k: Tables, t: seq<string>) {
    var items := Parse(k, t);
    items != [] && items[|items| - 1].Lone?
  }

  ghost predicate Ends(items: seq<Item>) { items != [] && items[|items| - 1].Lone? }

  lemma EndsCons(item: Item, items: seq<Item>)
    ensures Ends([item] + items) <==> if items == [] then item.Lone? else Ends(items)
  {
  }

  /** The options that shape memory need nothing of what follows, unless one lacks its value. */
  lemma {:induction false} MemoryReads(k: Tables, items: seq<Item>, before: seq<string>, rest: seq<string>)
    requires AllRead(k, items, before) && (Ends(items) ==> rest == [])
    ensures AllRead(k, Memory(items), rest)
  {
    if items != [] {
      var item, more := items[0], items[1..];
      assert items == [item] + more;
      EndsCons(item, more);
      MemoryReads(k, more, before, rest);
      if item.Lone? {
        LoneIsLast(k, item, more, before);
        assert Memory(items) == [item];
        AppendEmpty(Flatten([]), rest);
      } else if Shapes(item) {
        assert ([item] + Memory(more))[1..] == Memory(more);
      } else {
        AppendEmpty(Memory(more), []);
      }
    }
  }

  lemma LoneIsLast(k: Tables, item: Item, more: seq<Item>, rest: seq<string>)
    requires item.Lone? && Reads(k, item, Flatten(more) + rest)
    ensures more == [] && rest == []
  {
    FlattenLength(more);
  }

  lemma {:induction false} FlattenLength(items: seq<Item>)
    ensures |Flatten(items)| >= |items|
  {
    if items != [] { FlattenLength(items[1..]); }
  }

  lemma {:induction false} AllReadSplit(k: Tables, a: seq<Item>, b: seq<Item>, rest: seq<string>)
    requires AllRead(k, a + b, rest)
    ensures AllRead(k, a, Flatten(b) + rest) && AllRead(k, b, rest)
  {
    if a == [] {
      AppendEmpty(b, a);
    } else {
      assert (a + b)[0] == a[0] && (a + b)[1..] == a[1..] + b;
      AllReadSplit(k, a[1..], b, rest);
      FlatMapAppend(Tokens, a[1..], b);
      Assoc(Flatten(a[1..]), Flatten(b), rest);
    }
  }

  lemma {:induction false} MemoryAppend(a: seq<Item>, b: seq<Item>)
    ensures Memory(a + b) == Memory(a) + Memory(b)
  {
    if a == [] {
      AppendEmpty(b, a);
    } else {
      assert a + b == [a[0]] + (a[1..] + b);
      MemoryCons(a[0], a[1..] + b);
      MemoryAppend(a[1..], b);
      Assoc(if Shapes(a[0]) then [a[0]] else [], Memory(a[1..]), Memory(b));
    }
  }

  lemma {:induction false} MemoryTwice(items: seq<Item>)
    ensures Memory(Memory(items)) == Memory(items)
    ensures forall item <- Memory(items) :: Shapes(item)
  {
    if items != [] {
      MemoryTwice(items[1..]);
      if Shapes(items[0]) {
        MemoryCons(items[0], Memory(items[1..]));
      } else {
        AppendEmpty(Memory(items[1..]), []);
      }
    }
  }

  lemma DigitsAreNoFlag(k: Tables, n: nat)
    requires Sane(k)
    ensures !IsFlag(Digits(n)) && Digits(n) !in k.withValue && Digits(n) !in k.switches
  {
    assert Digits(n)[0] in Digits(n);
  }

  /** Tells option names apart: the length, the third character and the last. */
  datatype Code = Code(length: nat, third: char, last: char)

  function CodeOf(f: string): Code {
    Code(|f|, if |f| > 2 then f[2] else ' ', if f == [] then ' ' else f[|f| - 1])
  }

  const SHORT_CODES := [
    Code(2, ' ', 'm'), Code(2, ' ', 'c'), Code(2, ' ', 'b'), Code(3, 'p', 'p'), Code(3, 'a', 'a'), Code(3, 'b', 'b'),
    Code(3, 'm', 'm'), Code(3, 's', 's'), Code(3, 'g', 'g'), Code(4, 't', 'k'), Code(4, 't', 'v'), Code(4, 'z', 'm')]

  const LONG_CODES := [
    Code(7, 'm', 'l'), Code(10, 'c', 'e'), Code(10, 'p', 'l'), Code(14, 'c', 'k'), Code(14, 'c', 'v'),
    Code(12, 'f', 'n'), Code(13, 'u', 'e'), Code(12, 'b', 'e'), Code(11, 'l', 'e'), Code(12, 's', 'e'),
    Code(14, 't', 't'), Code(10, 'm', 'u')]

  const SWITCH_CODES := [
    Code(10, 's', 'l'), Code(9, 'n', 'p'), Code(7, 'm', 'k'), Code(4, 'v', 'u'), Code(12, 'k', 'd'),
    Code(5, 'k', 'o'), Code(15, 'n', 'd')]

  lemma ShortCodes(f: string)
    requires f in SHORT_OPTIONS
    ensures IsFlag(f) && CodeOf(f) in SHORT_CODES
  {
  }

  lemma LongCodes(f: string)
    requires f in LONG_OPTIONS
    ensures IsFlag(f) && CodeOf(f) in LONG_CODES
  {
  }

  lemma SwitchCodes(f: string)
    requires f in FITTER.switches
    ensures IsFlag(f) && CodeOf(f) in SWITCH_CODES
  {
  }

  /** A name with no code of the tables is in none of them. */
  lemma Uncoded(f: string)
    ensures CodeOf(f) !in SHORT_CODES && CodeOf(f) !in LONG_CODES ==> f !in FITTER.withValue
    ensures CodeOf(f) !in SWITCH_CODES ==> f !in FITTER.switches
  {
    if f in FITTER.switches { SwitchCodes(f); }
    if f in SHORT_OPTIONS { ShortCodes(f); }
    if f in LONG_OPTIONS { LongCodes(f); }
  }

  lemma CodesApart(c: Code)
    ensures c in SWITCH_CODES ==> c !in SHORT_CODES && c !in LONG_CODES
  {
  }

  lemma OptionIsFlag(f: string)
    requires f in FITTER.withValue
    ensures IsFlag(f)
  {
    if f in SHORT_OPTIONS { ShortCodes(f); } else { LongCodes(f); }
  }

  lemma SwitchIsNoOption(f: string)
    requires f in FITTER.switches
    ensures IsFlag(f) && f !in FITTER.withValue
  {
    SwitchCodes(f);
    CodesApart(CodeOf(f));
    Uncoded(f);
  }

  lemma TargetIsNeither()
    ensures IsFlag(TARGET) && TARGET !in FITTER.withValue && TARGET !in FITTER.switches
  {
    assert CodeOf(TARGET) == Code(12, 'f', 't');
    Uncoded(TARGET);
  }

  lemma FitterFlagsOnly()
    ensures FlagsOnly(FITTER)
  {
    FitterIsSane();
    forall f | f in FITTER.placement ensures IsFlag(f) { PlacementIsFlag(f); }
  }

  lemma PlacementIsFlag(f: string)
    requires f in FITTER.placement
    ensures IsFlag(f)
  {
  }

  lemma FitterIsSane()
    ensures Sane(FITTER) && TARGET !in FITTER.withValue && TARGET !in FITTER.switches && IsFlag(TARGET)
  {
    hide IsFlag;
    forall f | f in FITTER.withValue ensures IsFlag(f) { OptionIsFlag(f); }
    forall f | f in FITTER.switches ensures IsFlag(f) && f !in FITTER.withValue { SwitchIsNoOption(f); }
    TargetIsNeither();
  }

  /** What follows the options of the launch: the free memory to leave per device. */
  function Target(margin: nat): seq<string> { [TARGET, Digits(margin)] }

  lemma TargetReads(margin: nat)
    ensures Parse(FITTER, Target(margin)) == [Dropped(TARGET, Some(Digits(margin)))]
  {
    FitterIsSane();
    DigitsAreNoFlag(FITTER, margin);
    assert Target(margin)[2..] == [];
  }

  /** With every option complete, what the fitter is shown reads as the launch's memory
      options in their order, then the target: no placement and no other option is left. */
  lemma {:induction false} ShownOptions(t: seq<string>, margin: nat)
    requires !Dangling(FITTER, t)
    ensures Parse(FITTER, FitParams(t, margin)) ==
            Memory(Parse(FITTER, t)) + [Dropped(TARGET, Some(Digits(margin)))]
    ensures forall item <- Parse(FITTER, FitParams(t, margin)) :: Shapes(item) || (item.Dropped? && item.flag == TARGET)
  {
    FitterIsSane();
    var items := Parse(FITTER, t);
    MemoryTwice(items);
    ParsedReads(FITTER, t);
    FilterKeepsMemory(FITTER, t);
    MemoryReads(FITTER, items, [], Target(margin));
    ParseFlatten(FITTER, Memory(items), Target(margin));
    TargetReads(margin);
  }

  /** A memory option that lacks its value takes the target flag for one. */
  lemma {:induction false} ShownDangling(t: seq<string>, margin: nat)
    requires Dangling(FITTER, t)
    ensures var items := Parse(FITTER, t);
            var last := |items| - 1;
            Parse(FITTER, FitParams(t, margin)) ==
              Memory(items[..last]) + [Kept(items[last].flag, TARGET), Stray(Digits(margin))] &&
            Fitted(FITTER, t) == Flatten(Memory(items[..last])) + [items[last].flag]
  {
    FitterIsSane();
    var items := Parse(FITTER, t);
    var front, last := items[..|items| - 1], items[|items| - 1];
    var flag := last.flag;
    assert items == front + [last];
    ParsedReads(FITTER, t);
    AllReadSplit(FITTER, front, [last], []);
    FlatMapOne(Tokens, last);
    assert Flatten([last]) + [] == [flag];
    NoLoneBefore(FITTER, front, [flag]);
    var rest := [flag] + Target(margin);
    MemoryReads(FITTER, front, [flag], rest);
    ParseFlatten(FITTER, Memory(front), rest);
    DanglingTailReads(flag, margin);
    FilterKeepsMemory(FITTER, t);
    MemoryAppend(front, [last]);
    MemoryCons(last, []);
    assert [last] + [] == [last];
    FlatMapAppend(Tokens, Memory(front), [last]);
    Assoc(Flatten(Memory(front)), [flag], Target(margin));
  }

  lemma DanglingTailReads(flag: string, margin: nat)
    requires flag in FITTER.withValue
    ensures Parse(FITTER, [flag] + Target(margin)) == [Kept(flag, TARGET), Stray(Digits(margin))]
  {
    FitterIsSane();
    DigitsAreNoFlag(FITTER, margin);
    DigitsAreNoPlacement(margin);
    var rest, value := [flag] + Target(margin), [Digits(margin)];
    assert Head(FITTER, rest) == Kept(flag, TARGET);
    assert rest[2..] == value;
    assert Head(FITTER, value) == Stray(value[0]);
    assert value[1..] == [];
    assert Parse(FITTER, value) == [Stray(value[0])];
  }

  lemma DigitsAreNoPlacement(n: nat)
    ensures Digits(n) !in FITTER.placement
  {
    assert Digits(n)[0] in Digits(n);
    assert forall f <- FITTER.placement :: f[0] == '-';
  }

  lemma {:induction false} NoLoneBefore(k: Tables, items: seq<Item>, rest: seq<string>)
    requires AllRead(k, items, rest) && rest != []
    ensures !Ends(items)
  {
    if items != [] {
      NoLoneBefore(k, items[1..], rest);
      if items[0].Lone? {
        LoneIsLast(k, items[0], items[1..], rest);
      }
    }
  }

  /** Filtering again changes nothing, exactly when no memory option lacks its value. */
  lemma FitTwice(t: seq<string>, margin: nat, margin': nat)
    ensures FitParams(FitParams(t, margin), margin') == FitParams(t, margin') <==> !Dangling(FITTER, t)
  {
    var items := Parse(FITTER, t);
    var shown := FitParams(t, margin);
    FilterKeepsMemory(FITTER, t);
    FilterKeepsMemory(FITTER, shown);
    if Dangling(FITTER, t) {
      ShownDangling(t, margin);
      var front, flag := Memory(items[..|items| - 1]), items[|items| - 1].flag;
      var tail := [Kept(flag, TARGET), Stray(Digits(margin))];
      MemoryAppend(front, tail);
      MemoryTwice(items[..|items| - 1]);
      MemoryCons(tail[0], tail[1..]);
      assert Memory(tail) == [tail[0]];
      FlatMapAppend(Tokens, front, Memory(tail));
      FlatMapOne(Tokens, tail[0]);
      assert |Fitted(FITTER, shown)| == |Fitted(FITTER, t)| + 1;
    } else {
      ShownOptions(t, margin);
      MemoryAppend(Memory(items), [Dropped(TARGET, Some(Digits(margin)))]);
      MemoryTwice(items);
      AppendEmpty(Memory(items), []);
    }
  }

  /** A launch whose model path was left out shows the failure. */
  lemma FitTwiceDiffers()
    ensures FitParams(FitParams(["-m"], 7), 7) != FitParams(["-m"], 7)
  {
    FitterIsSane();
    assert "-m" in SHORT_OPTIONS;
    assert "-m" in FITTER.withValue;
    assert Parse(FITTER, ["-m"]) == [Lone("-m")];
    FitTwice(["-m"], 7, 7);
  }
}

/** The argument list of a server launch, and what the memory fitter is shown of it:
    everything that shapes memory, and nothing of how the model was to be placed. */
module ServerArgs {
  import opened Decimal
  import opened FitArgs
  import opened Text

  datatype LoadFlags = Legacy | LoadMode

  datatype Error =
    | UnknownContext(key: string)
    | KvTypeNeedsFork(ty: string)
    | UnknownKvType(ty: string)
    | UnknownParser(parser: string)
    | SpecTypeUnsupported(spec: string)
    | SpecTypeConflictsWithDraft(spec: string)

  datatype Result<+T> = Ok(value: T) | Err(error: Error)

  /** What the model's definition says about a launch. */
  datatype Def = Def(
    gpuLayers: Option<int>, cpuMoe: Option<int>, mlock: Option<bool>, noMmap: Option<bool>, flashAttn: Option<bool>,
    kvK: Option<string>, kvV: Option<string>, extra: seq<string>)

  /** How one launch asks for the model to be placed. */
  datatype Placing = Placing(gpuLayers: Option<int>, cpuMoe: Option<int>, autoFit: bool, target: Option<nat>)

  /** The rest of the launch's parameters. */
  datatype Params = Params(
    parallel: Option<int>, cacheReuse: Option<int>, mlock: Option<bool>, noMmap: Option<bool>, loadFlags: LoadFlags,
    ubatch: Option<int>, batch: Option<int>, threads: Option<int>, threadsBatch: Option<int>, flashAttn: Option<bool>,
    swaFull: bool, cachePrompt: Option<bool>, splitMode: Option<string>, kvK: Option<string>, kvV: Option<string>,
    extra: seq<string>)

  /** A launch: where the model and its context come from, and the arguments between the
      cache types and the extra ones (module `ServerTail`), which may fail to resolve. */
  datatype Launch = Launch(def: Def, params: Params, model: string, context: Result<Option<int>>, port: int,
                           turbo: bool, middle: Result<seq<string>>)

  const PLACEMENT_ARGS := [
    "-ngl", "--gpu-layers", "--n-gpu-layers", "-ncmoe", "--n-cpu-moe", "-ot", "--override-tensor", "--cpu-moe", "-cmoe"]

  const MAINLINE_KV_TYPES := ["f16", "bf16", "f32", "q8_0", "q5_1", "q5_0", "q4_1", "q4_0", "iq4_nl"]
  const TURBO_KV_TYPES := ["turbo3", "turbo4"]

  function Or<T>(a: Option<T>, b: Option<T>): Option<T> { if a.Some? then a else b }

  predicate White(c: char) {
    var n := c as int;
    9 <= n <= 13 || n == 32 || n == 0x85 || n == 0xA0 || n == 0x1680 || 0x2000 <= n <= 0x200A ||
    n == 0x2028 || n == 0x2029 || n == 0x202F || n == 0x205F || n == 0x3000
  }

  predicate Blank(s: string) { forall c <- s :: White(c) }

  function NonBlank(s: Option<string>): Option<string> {
    if s.Some? && Blank(s.value) then None else s
  }

  // ----- what the launch asks for, option by option -----

  function Positive(flag: string, n: Option<int>): seq<Item> {
    if n.Some? && n.value > 0 then [Kept(flag, Show(n.value))] else []
  }

  function PositiveOther(flag: string, n: Option<int>): seq<Item> {
    if n.Some? && n.value > 0 then [Dropped(flag, Some(Show(n.value)))] else []
  }

  function Network(port: int): seq<Item> {
    [Dropped("--host", Some("127.0.0.1")), Dropped("--port", Some(Show(port)))]
  }

  /** The definition and the launch name a placement themselves. */
  predicate PlacedByHand(d: Def, p: Params) {
    exists arg <- d.extra + p.extra :: arg in PLACEMENT_ARGS
  }

  function Placement(d: Def, p: Params, at: Placing): seq<Item> {
    var layers := if at.gpuLayers.Some? && at.gpuLayers.value > 0 then at.gpuLayers else d.gpuLayers;
    var moe := OrElse(Or(at.cpuMoe, d.cpuMoe), 0);
    (if at.autoFit && layers.None? && moe <= 0 && !PlacedByHand(d, p) then
       if at.target.Some? then [Dropped(TARGET, Some(Digits(at.target.value)))] else []
     else [Dropped("-ngl", Some(Show(OrElse(layers, 999))))]) +
    (if moe > 0 then [Dropped("--n-cpu-moe", Some(Show(moe)))] else [])
  }

  function LoadArgs(mlock: bool, noMmap: bool, flags: LoadFlags): seq<Item> {
    match flags
    case Legacy =>
      (if mlock then [Switch("--mlock")] else []) + (if noMmap then [Switch("--no-mmap")] else [])
    case LoadMode =>
      if !mlock && !noMmap then []
      else [Kept("--load-mode", if !mlock then "none" else if !noMmap then "mmap+mlock" else "mlock")]
  }

  function Loading(d: Def, p: Params): seq<Item> {
    LoadArgs(OrElse(Or(p.mlock, d.mlock), false), OrElse(Or(p.noMmap, d.noMmap), false), p.loadFlags)
  }

  function Flash(d: Def, p: Params): seq<Item> {
    var flash := Or(p.flashAttn, d.flashAttn);
    if flash.Some? then [Kept("--flash-attn", if flash.value then "on" else "off")] else []
  }

  function Swa(p: Params): seq<Item> { if p.swaFull then [Switch("--swa-full")] else [] }

  function CachePrompt(p: Params): seq<Item> {
    if p.cachePrompt == Some(true) then [Dropped("--cache-prompt", None)] else []
  }

  function Split(p: Params): seq<Item> {
    var mode := NonBlank(p.splitMode);
    if mode.Some? then [Kept("--split-mode", mode.value)] else []
  }

  function KeyType(d: Def, p: Params): string {
    OrElse(Or(NonBlank(p.kvK), NonBlank(d.kvK)), "q8_0")
  }

  function ValueType(d: Def, p: Params): string {
    OrElse(Or(NonBlank(p.kvV), NonBlank(d.kvV)), KeyType(d, p))
  }

  function ValidKv(ty: string, turbo: bool): Option<Error> {
    var t := Lower(ty);
    if t in MAINLINE_KV_TYPES then None
    else if t in TURBO_KV_TYPES then (if turbo then None else Some(KvTypeNeedsFork(t)))
    else Some(UnknownKvType(t))
  }

  function CacheTypes(d: Def, p: Params): seq<Item> {
    [Kept("--cache-type-k", Lower(KeyType(d, p))), Kept("--cache-type-v", Lower(ValueType(d, p)))]
  }

  function ContextOf(l: Launch): Option<int> { if l.context.Ok? then l.context.value else None }

  function Opening(l: Launch): seq<Item> {
    [Kept("-m", l.model)] + Positive("-c", ContextOf(l)) + Network(l.port) + Positive("--parallel", l.params.parallel) +
    PositiveOther("--cache-reuse", l.params.cacheReuse)
  }

  /** Everything up to the model-loading flags. */
  function Loaded(l: Launch, at: Placing): seq<Item> {
    Opening(l) + Placement(l.def, l.params, at) + Loading(l.def, l.params)
  }

  /** Everything up to `--swa-full`. */
  function Front(l: Launch, at: Placing): seq<Item> {
    Loaded(l, at) + Positive("--ubatch-size", l.params.ubatch) + Positive("--batch-size", l.params.batch) +
    PositiveOther("--threads", l.params.threads) + PositiveOther("--threads-batch", l.params.threadsBatch) +
    Flash(l.def, l.params) + Swa(l.params)
  }

  /** The options up to the cache types. */
  function Options(l: Launch, at: Placing): seq<Item> {
    Front(l, at) + CachePrompt(l.params) + Split(l.params) + CacheTypes(l.def, l.params)
  }

  /** Why the launch cannot be built, the first reason first. */
  function Refusal(l: Launch): Option<Error> {
    if l.context.Err? then Some(l.context.error)
    else if ValidKv(KeyType(l.def, l.params), l.turbo).Some? then ValidKv(KeyType(l.def, l.params), l.turbo)
    else if ValidKv(ValueType(l.def, l.params), l.turbo).Some? then ValidKv(ValueType(l.def, l.params), l.turbo)
    else if l.middle.Err? then Some(l.middle.error)
    else None
  }

  /** The arguments after the cache types. */
  function Rest(l: Launch): seq<string> {
    (if l.middle.Ok? then l.middle.value else []) + l.def.extra + l.params.extra
  }

  function ServerArgs(l: Launch, at: Placing): Result<seq<string>> {
    if Refusal(l).Some? then Err(Refusal(l).value) else Ok(Flatten(Options(l, at)) + Rest(l))
  }

  // ----- the builder -----

  method Push2(a: seq<string>, flag: string, value: string, ghost done: seq<Item>, ghost item: Item)
      returns (r: seq<string>)
    requires a == Flatten(done) && Tokens(item) == [flag, value]
    ensures r == Flatten(done + [item])
  {
    FlatMapAppend(Tokens, done, [item]);
    FlatMapOne(Tokens, item);
    r := a + [flag] + [value];
  }

  method Push(a: seq<string>, flag: string, ghost done: seq<Item>, ghost item: Item) returns (r: seq<string>)
    requires a == Flatten(done) && Tokens(item) == [flag]
    ensures r == Flatten(done + [item])
  {
    FlatMapAppend(Tokens, done, [item]);
    FlatMapOne(Tokens, item);
    r := a + [flag];
  }

  method PushPositive(a: seq<string>, flag: string, n: Option<int>, ghost done: seq<Item>, ghost more: seq<Item>)
      returns (r: seq<string>)
    requires a == Flatten(done) && (more == Positive(flag, n) || more == PositiveOther(flag, n))
    ensures r == Flatten(done + more)
  {
    r := a;
    if n.Some? && n.value > 0 {
      r := Push2(r, flag, Show(n.value), done, more[0]);
    } else {
      AppendEmpty(done, more);
    }
  }

  method PushOpening(l: Launch) returns (a: seq<string>)
    requires l.context.Ok?
    ensures a == Flatten(Opening(l))
  {
    var p := l.params;
    ghost var done: seq<Item> := [];
    a := Push2([], "-m", l.model, [], Kept("-m", l.model));
    done := [Kept("-m", l.model)];
    AppendEmpty(done, []);
    a := PushPositive(a, "-c", l.context.value, done, Positive("-c", ContextOf(l)));
    done := done + Positive("-c", ContextOf(l));
    a := Push2(a, "--host", "127.0.0.1", done, Network(l.port)[0]);
    a := Push2(a, "--port", Show(l.port), done + [Network(l.port)[0]], Network(l.port)[1]);
    assert done + [Network(l.port)[0]] + [Network(l.port)[1]] == done + Network(l.port);
    done := done + Network(l.port);
    a := PushPositive(a, "--parallel", p.parallel, done, Positive("--parallel", p.parallel));
    done := done + Positive("--parallel", p.parallel);
    a := PushPositive(a, "--cache-reuse", p.cacheReuse, done, PositiveOther("--cache-reuse", p.cacheReuse));
  }

  /** The model is left to the server's own fitter only when nothing placed it. */
  method PushPlacement(a: seq<string>, d: Def, p: Params, at: Placing, ghost done: seq<Item>) returns (r: seq<string>)
    requires a == Flatten(done)
    ensures r == Flatten(done + Placement(d, p, at))
  {
    r := a;
    var layers := if at.gpuLayers.Some? && at.gpuLayers.value > 0 then at.gpuLayers else d.gpuLayers;
    var moe := OrElse(Or(at.cpuMoe, d.cpuMoe), 0);
    ghost var before := done;
    if at.autoFit && layers.None? && moe <= 0 && !PlacedByHand(d, p) {
      if at.target.Some? {
        ghost var item := Dropped(TARGET, Some(Digits(at.target.value)));
        r := Push2(r, TARGET, Digits(at.target.value), before, item);
        before := before + [item];
      }
    } else {
      ghost var item := Dropped("-ngl", Some(Show(OrElse(layers, 999))));
      r := Push2(r, "-ngl", Show(OrElse(layers, 999)), before, item);
      before := before + [item];
    }
    if moe > 0 {
      r := Push2(r, "--n-cpu-moe", Show(moe), before, Dropped("--n-cpu-moe", Some(Show(moe))));
    }
    assert moe > 0 ==> before + [Dropped("--n-cpu-moe", Some(Show(moe)))] == done + Placement(d, p, at);
    assert moe <= 0 ==> before == done + Placement(d, p, at);
  }

  method PushLoading(a: seq<string>, mlock: bool, noMmap: bool, flags: LoadFlags, ghost done: seq<Item>)
      returns (r: seq<string>)
    requires a == Flatten(done)
    ensures r == Flatten(done + LoadArgs(mlock, noMmap, flags))
  {
    r := a;
    ghost var before := done;
    match flags
    case Legacy =>
      if mlock {
        r := Push(r, "--mlock", before, Switch("--mlock"));
        before := before + [Switch("--mlock")];
      }
      if noMmap {
        r := Push(r, "--no-mmap", before, Switch("--no-mmap"));
        before := before + [Switch("--no-mmap")];
      }
      assert before == done + LoadArgs(mlock, noMmap, flags);
    case LoadMode =>
      if mlock || noMmap {
        var mode := if !mlock then "none" else if !noMmap then "mmap+mlock" else "mlock";
        r := Push2(r, "--load-mode", mode, before, Kept("--load-mode", mode));
        before := before + [Kept("--load-mode", mode)];
      }
      assert before == done + LoadArgs(mlock, noMmap, flags);
  }

  method PushFlash(a: seq<string>, d: Def, p: Params, ghost done: seq<Item>) returns (r: seq<string>)
    requires a == Flatten(done)
    ensures r == Flatten(done + Flash(d, p))
  {
    r := a;
    var flash := Or(p.flashAttn, d.flashAttn);
    if flash.Some? {
      var value := if flash.value then "on" else "off";
      r := Push2(r, "--flash-attn", value, done, Kept("--flash-attn", value));
    } else {
      AppendEmpty(done, []);
    }
  }

  method PushFront(opening: seq<string>, l: Launch, at: Placing) returns (a: seq<string>)
    requires opening == Flatten(Opening(l))
    ensures a == Flatten(Front(l, at))
  {
    var d, p := l.def, l.params;
    ghost var done := Opening(l);
    a := PushPlacement(opening, d, p, at, done);
    done := done + Placement(d, p, at);
    a := PushLoading(a, OrElse(Or(p.mlock, d.mlock), false), OrElse(Or(p.noMmap, d.noMmap), false), p.loadFlags, done);
    done := done + Loading(d, p);
    a := PushPositive(a, "--ubatch-size", p.ubatch, done, Positive("--ubatch-size", p.ubatch));
    done := done + Positive("--ubatch-size", p.ubatch);
    a := PushPositive(a, "--batch-size", p.batch, done, Positive("--batch-size", p.batch));
    done := done + Positive("--batch-size", p.batch);
    a := PushPositive(a, "--threads", p.threads, done, PositiveOther("--threads", p.threads));
    done := done + PositiveOther("--threads", p.threads);
    a := PushPositive(a, "--threads-batch", p.threadsBatch, done, PositiveOther("--threads-batch", p.threadsBatch));
    done := done + PositiveOther("--threads-batch", p.threadsBatch);
    a := PushFlash(a, d, p, done);
    done := done + Flash(d, p);
    if p.swaFull {
      a := Push(a, "--swa-full", done, Switch("--swa-full"));
    } else {
      AppendEmpty(done, []);
    }
  }

  method PushSplit(a: seq<string>, p: Params, ghost done: seq<Item>) returns (r: seq<string>)
    requires a == Flatten(done)
    ensures r == Flatten(done + CachePrompt(p) + Split(p))
  {
    r := a;
    ghost var before := done;
    if p.cachePrompt == Some(true) {
      r := Push(r, "--cache-prompt", before, Dropped("--cache-prompt", None));
      before := before + [Dropped("--cache-prompt", None)];
    }
    assert before == done + CachePrompt(p);
    if p.splitMode.Some? && !Blank(p.splitMode.value) {
      r := Push2(r, "--split-mode", p.splitMode.value, before, Kept("--split-mode", p.splitMode.value));
    } else {
      AppendEmpty(before, []);
    }
  }

  /** The vector is pushed option by option; the first refusal ends it. */
  method BuildServerArgs(l: Launch, at: Placing) returns (r: Result<seq<string>>)
    ensures r == ServerArgs(l, at)
  {
    if l.context.Err? {
      return Err(l.context.error);
    }
    var a := PushOpening(l);
    a := PushFront(a, l, at);
    a := PushSplit(a, l.params, Front(l, at));
    var key, value := KeyType(l.def, l.params), ValueType(l.def, l.params);
    var refused := ValidKv(key, l.turbo);
    if refused.Some? {
      return Err(refused.value);
    }
    refused := ValidKv(value, l.turbo);
    if refused.Some? {
      return Err(refused.value);
    }
    ghost var done := Front(l, at) + CachePrompt(l.params) + Split(l.params);
    ghost var types := CacheTypes(l.def, l.params);
    a := Push2(a, "--cache-type-k", Lower(key), done, types[0]);
    a := Push2(a, "--cache-type-v", Lower(value), done + [types[0]], types[1]);
    assert done + [types[0]] + [types[1]] == done + types;
    if l.middle.Err? {
      return Err(l.middle.error);
    }
    Assoc(a, l.middle.value, l.def.extra);
    Assoc(a, l.middle.value + l.def.extra, l.params.extra);
    r := Ok(a + l.middle.value + l.def.extra + l.params.extra);
  }

  // ----- what the fitter is shown of a launch -----

  /** The options of a launch that shape memory. */
  function MemoryOptions(l: Launch): seq<Item> {
    [Kept("-m", l.model)] + Positive("-c", ContextOf(l)) + Positive("--parallel", l.params.parallel) +
    Loading(l.def, l.params) + Positive("--ubatch-size", l.params.ubatch) + Positive("--batch-size", l.params.batch) +
    Flash(l.def, l.params) + Swa(l.params) + Split(l.params) + CacheTypes(l.def, l.params)
  }

  /** Reads as itself whatever follows. */
  ghost predicate Solid(k: Tables, item: Item) {
    match item
    case Kept(flag, _) => flag in k.withValue
    case Lone(_) => false
    case Switch(flag) => flag in k.switches
    case Dropped(flag, argument) =>
      flag !in k.withValue && flag !in k.switches && IsFlag(flag) &&
      argument.Some? && !IsFlag(argument.value)
    case Stray(_) => false
  }

  ghost predicate AllSolid(k: Tables, items: seq<Item>) {
    items == [] || (Solid(k, items[0]) && AllSolid(k, items[1..]))
  }

  lemma {:induction false} SolidPlus(k: Tables, a: seq<Item>, b: seq<Item>)
    requires AllSolid(k, a) && AllSolid(k, b)
    ensures AllSolid(k, a + b)
  {
    if a == [] {
      AppendEmpty(b, a);
    } else {
      SolidPlus(k, a[1..], b);
      assert (a + b)[0] == a[0] && (a + b)[1..] == a[1..] + b;
    }
  }

  lemma {:induction false} SolidReads(k: Tables, items: seq<Item>, rest: seq<string>)
    requires AllSolid(k, items)
    ensures AllRead(k, items, rest)
  {
    if items != [] {
      SolidReads(k, items[1..], rest);
    }
  }

  lemma {:induction false} AllReadAppend(k: Tables, a: seq<Item>, b: seq<Item>, rest: seq<string>)
    requires AllRead(k, a, Flatten(b) + rest) && AllRead(k, b, rest)
    ensures AllRead(k, a + b, rest)
  {
    if a == [] {
      AppendEmpty(b, a);
    } else {
      assert (a + b)[0] == a[0] && (a + b)[1..] == a[1..] + b;
      AllReadAppend(k, a[1..], b, rest);
      FlatMapAppend(Tokens, a[1..], b);
      Assoc(Flatten(a[1..]), Flatten(b), rest);
    }
  }

  predicate TakesValue(k: Tables, flag: string) { flag in k.withValue }

  predicate IsSwitch(k: Tables, flag: string) { flag in k.switches }

  predicate Unlisted(k: Tables, flag: string) { flag !in k.withValue && flag !in k.switches && IsFlag(flag) }

  /** Where the builder's options stand in the fitter's tables. */
  ghost predicate Knows(k: Tables) {
    TakesValue(k, "-m") && TakesValue(k, "-c") && TakesValue(k, "--parallel") && TakesValue(k, "--load-mode") &&
    TakesValue(k, "--ubatch-size") && TakesValue(k, "--batch-size") && TakesValue(k, "--flash-attn") &&
    TakesValue(k, "--split-mode") && TakesValue(k, "--cache-type-k") && TakesValue(k, "--cache-type-v") &&
    IsSwitch(k, "--mlock") && IsSwitch(k, "--no-mmap") && IsSwitch(k, "--swa-full") &&
    Unlisted(k, "--host") && Unlisted(k, "--port") && Unlisted(k, "--cache-reuse") && Unlisted(k, "-ngl") &&
    Unlisted(k, "--n-cpu-moe") && Unlisted(k, "--threads") && Unlisted(k, "--threads-batch") &&
    Unlisted(k, "--cache-prompt") && Unlisted(k, TARGET)
  }

  lemma Unlisting(f: string, code: Code)
    requires IsFlag(f) && CodeOf(f) == code
    requires code !in SHORT_CODES && code !in LONG_CODES && code !in SWITCH_CODES
    ensures Unlisted(FITTER, f)
  {
    Uncoded(f);
  }

  lemma KnownUnlisted()
    ensures Unlisted(FITTER, "--host") && Unlisted(FITTER, "--port") && Unlisted(FITTER, "--cache-reuse")
  {
    Unlisting("--host", Code(6, 'h', 't'));
    Unlisting("--port", Code(6, 'p', 't'));
    Unlisting("--cache-reuse", Code(13, 'c', 'e'));
  }

  lemma KnownUnlistedPlacement()
    ensures Unlisted(FITTER, "-ngl") && Unlisted(FITTER, "--n-cpu-moe")
  {
    Unlisting("-ngl", Code(4, 'g', 'l'));
    Unlisting("--n-cpu-moe", Code(11, 'n', 'e'));
  }

  lemma KnownUnlistedThreads()
    ensures Unlisted(FITTER, "--threads") && Unlisted(FITTER, "--threads-batch")
  {
    Unlisting("--threads", Code(9, 't', 's'));
    Unlisting("--threads-batch", Code(15, 't', 'h'));
  }

  lemma KnownUnlistedPrompt()
    ensures Unlisted(FITTER, "--cache-prompt")
  {
    Unlisting("--cache-prompt", Code(14, 'c', 't'));
  }

  lemma FitterKnows()
    ensures Knows(FITTER)
  {
    KnownUnlisted();
    KnownUnlistedPlacement();
    KnownUnlistedThreads();
    KnownUnlistedPrompt();
    FitterIsSane();
    assert "-m" in SHORT_OPTIONS && "-c" in SHORT_OPTIONS;
  }

  lemma ShownIsNoFlag(n: int)
    ensures !IsFlag(Show(n))
  {
    if n < 0 {
      assert Digits(-n)[0] in Digits(-n);
    } else {
      assert Digits(n)[0] in Digits(n);
    }
  }

  lemma PositiveSolid(k: Tables, flag: string, n: Option<int>)
    ensures TakesValue(k, flag) ==> AllSolid(k, Positive(flag, n))
    ensures Unlisted(k, flag) ==> AllSolid(k, PositiveOther(flag, n))
  {
    if n.Some? { ShownIsNoFlag(n.value); }
  }

  lemma OpeningSolid(k: Tables, l: Launch)
    requires Knows(k)
    ensures AllSolid(k, Opening(l))
  {
    var p := l.params;
    PositiveSolid(k, "-c", ContextOf(l));
    PositiveSolid(k, "--parallel", p.parallel);
    PositiveSolid(k, "--cache-reuse", p.cacheReuse);
    ShownIsNoFlag(l.port);
    var done := [Kept("-m", l.model)];
    SolidPlus(k, done, Positive("-c", ContextOf(l)));
    done := done + Positive("-c", ContextOf(l));
    SolidPlus(k, done, Network(l.port));
    done := done + Network(l.port);
    SolidPlus(k, done, Positive("--parallel", p.parallel));
    SolidPlus(k, done + Positive("--parallel", p.parallel), PositiveOther("--cache-reuse", p.cacheReuse));
  }

  lemma PlacementSolid(k: Tables, d: Def, p: Params, at: Placing)
    requires Knows(k) && Sane(k)
    ensures AllSolid(k, Placement(d, p, at))
  {
    var layers := if at.gpuLayers.Some? && at.gpuLayers.value > 0 then at.gpuLayers else d.gpuLayers;
    ShownIsNoFlag(OrElse(layers, 999));
    ShownIsNoFlag(OrElse(Or(at.cpuMoe, d.cpuMoe), 0));
    if at.target.Some? { DigitsAreNoFlag(k, at.target.value); }
  }

  lemma LoadingSolid(k: Tables, d: Def, p: Params)
    requires Knows(k)
    ensures AllSolid(k, Loading(d, p))
  {
  }

  lemma AttentionSolid(k: Tables, d: Def, p: Params)
    requires Knows(k)
    ensures AllSolid(k, Flash(d, p)) && AllSolid(k, Swa(p))
  {
  }

  lemma BatchingSolid(k: Tables, p: Params)
    requires Knows(k)
    ensures AllSolid(k, Positive("--ubatch-size", p.ubatch)) && AllSolid(k, Positive("--batch-size", p.batch))
    ensures AllSolid(k, PositiveOther("--threads", p.threads))
    ensures AllSolid(k, PositiveOther("--threads-batch", p.threadsBatch))
  {
    PositiveSolid(k, "--ubatch-size", p.ubatch);
    PositiveSolid(k, "--batch-size", p.batch);
    PositiveSolid(k, "--threads", p.threads);
    PositiveSolid(k, "--threads-batch", p.threadsBatch);
  }

  lemma ClosingSolid(k: Tables, d: Def, p: Params)
    requires Knows(k)
    ensures AllSolid(k, Split(p) + CacheTypes(d, p))
  {
    SolidPlus(k, Split(p), CacheTypes(d, p));
  }

  lemma FrontSolid(k: Tables, l: Launch, at: Placing)
    requires AllSolid(k, Opening(l)) && AllSolid(k, Placement(l.def, l.params, at))
    requires AllSolid(k, Loading(l.def, l.params))
    requires AllSolid(k, Positive("--ubatch-size", l.params.ubatch))
    requires AllSolid(k, Positive("--batch-size", l.params.batch))
    requires AllSolid(k, PositiveOther("--threads", l.params.threads))
    requires AllSolid(k, PositiveOther("--threads-batch", l.params.threadsBatch))
    requires AllSolid(k, Flash(l.def, l.params)) && AllSolid(k, Swa(l.params))
    ensures AllSolid(k, Front(l, at))
  {
    var d, p := l.def, l.params;
    var done := Opening(l);
    SolidPlus(k, done, Placement(d, p, at));
    done := done + Placement(d, p, at);
    SolidPlus(k, done, Loading(d, p));
    done := done + Loading(d, p);
    SolidPlus(k, done, Positive("--ubatch-size", p.ubatch));
    done := done + Positive("--ubatch-size", p.ubatch);
    SolidPlus(k, done, Positive("--batch-size", p.batch));
    done := done + Positive("--batch-size", p.batch);
    SolidPlus(k, done, PositiveOther("--threads", p.threads));
    done := done + PositiveOther("--threads", p.threads);
    SolidPlus(k, done, PositiveOther("--threads-batch", p.threadsBatch));
    done := done + PositiveOther("--threads-batch", p.threadsBatch);
    SolidPlus(k, done, Flash(d, p));
    SolidPlus(k, done + Flash(d, p), Swa(p));
  }

  /** The launch's options read as themselves whatever arguments follow. */
  lemma OptionsRead(k: Tables, l: Launch, at: Placing, rest: seq<string>)
    requires Knows(k) && Sane(k)
    ensures AllRead(k, Options(l, at), rest)
  {
    var front, prompt, closing := Front(l, at), CachePrompt(l.params), Split(l.params) + CacheTypes(l.def, l.params);
    Assoc(front, prompt, Split(l.params));
    Assoc(front, prompt + Split(l.params), CacheTypes(l.def, l.params));
    Assoc(prompt, Split(l.params), CacheTypes(l.def, l.params));
    OpeningSolid(k, l);
    PlacementSolid(k, l.def, l.params, at);
    LoadingSolid(k, l.def, l.params);
    BatchingSolid(k, l.params);
    AttentionSolid(k, l.def, l.params);
    FrontSolid(k, l, at);
    ClosingSolid(k, l.def, l.params);
    SolidReads(k, closing, rest);
    PromptReads(k, l, rest);
    AllReadAppend(k, prompt, closing, rest);
    SolidReads(k, front, Flatten(prompt + closing) + rest);
    AllReadAppend(k, front, prompt + closing, rest);
  }

  lemma PromptReads(k: Tables, l: Launch, rest: seq<string>)
    requires Knows(k)
    ensures AllRead(k, CachePrompt(l.params), Flatten(Split(l.params) + CacheTypes(l.def, l.params)) + rest)
  {
    var closing := Split(l.params) + CacheTypes(l.def, l.params);
    var after := Flatten(closing) + rest;
    assert closing == [closing[0]] + closing[1..];
    FlattenCons(closing[0], closing[1..]);
    assert after[0] == closing[0].flag;
    AppendEmpty(after, Flatten([]));
  }

  lemma {:induction false} MemoryOfUniform(items: seq<Item>)
    ensures (forall item <- items :: Shapes(item)) ==> Memory(items) == items
    ensures (forall item <- items :: !Shapes(item)) ==> Memory(items) == []
  {
    if items != [] {
      MemoryOfUniform(items[1..]);
      assert items[0] in items;
    }
  }

  predicate AllShape(items: seq<Item>) { forall item <- items :: Shapes(item) }

  predicate NoneShape(items: seq<Item>) { forall item <- items :: !Shapes(item) }

  lemma MemoryKeeps(done: seq<Item>, section: seq<Item>)
    requires AllShape(section)
    ensures Memory(done + section) == Memory(done) + section
  {
    MemoryAppend(done, section);
    MemoryOfUniform(section);
  }

  lemma MemoryDrops(done: seq<Item>, section: seq<Item>)
    requires NoneShape(section)
    ensures Memory(done + section) == Memory(done)
  {
    MemoryAppend(done, section);
    MemoryOfUniform(section);
    AppendEmpty(Memory(done), []);
  }

  lemma OpeningMemory(l: Launch)
    ensures Memory(Opening(l)) ==
            [Kept("-m", l.model)] + Positive("-c", ContextOf(l)) + Positive("--parallel", l.params.parallel)
  {
    var context, parallel := Positive("-c", ContextOf(l)), Positive("--parallel", l.params.parallel);
    var done := [Kept("-m", l.model)];
    MemoryOfUniform(done);
    MemoryKeeps(done, context);
    done := done + context;
    MemoryDrops(done, Network(l.port));
    done := done + Network(l.port);
    MemoryKeeps(done, parallel);
    MemoryDrops(done + parallel, PositiveOther("--cache-reuse", l.params.cacheReuse));
  }

  lemma LoadedMemory(l: Launch, at: Placing)
    ensures Memory(Loaded(l, at)) == Memory(Opening(l)) + Loading(l.def, l.params)
  {
    MemoryDrops(Opening(l), Placement(l.def, l.params, at));
    MemoryKeeps(Opening(l) + Placement(l.def, l.params, at), Loading(l.def, l.params));
  }

  lemma FrontMemory(l: Launch, at: Placing)
    ensures Memory(Front(l, at)) ==
            Memory(Loaded(l, at)) + Positive("--ubatch-size", l.params.ubatch) +
            Positive("--batch-size", l.params.batch) + Flash(l.def, l.params) + Swa(l.params)
  {
    var d, p := l.def, l.params;
    var done := Loaded(l, at);
    MemoryKeeps(done, Positive("--ubatch-size", p.ubatch));
    done := done + Positive("--ubatch-size", p.ubatch);
    MemoryKeeps(done, Positive("--batch-size", p.batch));
    done := done + Positive("--batch-size", p.batch);
    MemoryDrops(done, PositiveOther("--threads", p.threads));
    done := done + PositiveOther("--threads", p.threads);
    MemoryDrops(done, PositiveOther("--threads-batch", p.threadsBatch));
    done := done + PositiveOther("--threads-batch", p.threadsBatch);
    MemoryKeeps(done, Flash(d, p));
    MemoryKeeps(done + Flash(d, p), Swa(p));
  }

  lemma OptionsMemory(l: Launch, at: Placing)
    ensures Memory(Options(l, at)) == MemoryOptions(l)
  {
    OpeningMemory(l);
    LoadedMemory(l, at);
    FrontMemory(l, at);
    var front := Front(l, at);
    MemoryDrops(front, CachePrompt(l.params));
    MemoryKeeps(front + CachePrompt(l.params), Split(l.params));
    MemoryKeeps(front + CachePrompt(l.params) + Split(l.params), CacheTypes(l.def, l.params));
  }

  /** Options that read as themselves are filtered on their own. */
  lemma FittedAppend(k: Tables, items: seq<Item>, rest: seq<string>)
    requires Sane(k) && AllRead(k, items, rest)
    ensures Fitted(k, Flatten(items) + rest) == Flatten(Memory(items)) + Fitted(k, rest)
  {
    ParseFlatten(k, items, rest);
    FilterKeepsMemory(k, Flatten(items) + rest);
    FilterKeepsMemory(k, rest);
    MemoryAppend(items, Parse(k, rest));
    FlatMapAppend(Tokens, Memory(items), Memory(Parse(k, rest)));
  }

  /** What the fitter is shown of a launch, if it can be built. */
  function Shown(l: Launch, at: Placing, margin: nat): Result<seq<string>> {
    match ServerArgs(l, at)
    case Ok(argv) => Ok(FitParams(argv, margin))
    case Err(e) => Err(e)
  }

  /** The fitter is shown the launch's own model, context, slots, loading, batch shape,
      attention and cache types, then whatever memory options the later arguments hold. */
  lemma {:induction false} FitterSees(l: Launch, at: Placing, margin: nat)
    ensures Shown(l, at, margin) ==
            if Refusal(l).Some? then Err(Refusal(l).value)
            else Ok(Flatten(MemoryOptions(l)) + Fitted(FITTER, Rest(l)) + Target(margin))
  {
    FitterKnows();
    FitterIsSane();
    OptionsRead(FITTER, l, at, Rest(l));
    OptionsMemory(l, at);
    FittedAppend(FITTER, Options(l, at), Rest(l));
  }

  /** However a launch asks to be placed, it is refused alike or shown to the fitter alike. */
  lemma {:induction false} PlacementUnseen(l: Launch, at: Placing, at': Placing, margin: nat)
    ensures Shown(l, at, margin) == Shown(l, at', margin)
  {
    FitterSees(l, at, margin);
    FitterSees(l, at', margin);
  }
}

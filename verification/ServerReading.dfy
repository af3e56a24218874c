/** What the arguments of a launch say, told apart from how they are put together:
    sampler lines, loading intents, who decides an option, and a whole launch written out. */
module ServerReading {
  import opened Decimal
  import opened FitArgs
  import opened ServerArgs
  import opened ServerTail
  import opened Text

  // ----- parameter lines -----

  predicate Word(s: string) { s != [] && forall c <- s :: !White(c) }

  /** No white space at either end. */
  predicate Trimmed(s: string) { s != [] && !White(s[0]) && !White(s[|s| - 1]) }

  lemma {:induction false} WordEnds(word: string, rest: string)
    requires forall c <- word :: !White(c)
    requires rest == [] || White(rest[0])
    ensures WordLength(word + rest) == |word|
  {
    if word == [] {
      assert word + rest == rest;
    } else {
      assert (word + rest)[0] == word[0] && (word + rest)[1..] == word[1..] + rest;
      WordEnds(word[1..], rest);
    }
  }

  lemma TrimKeeps(s: string)
    requires Trimmed(s)
    ensures Trim(s) == s
  {
  }

  function Line(name: string, value: string): string { PARAMETER + " " + name + " " + value }

  /** What follows the keyword is the name up to its white space, and the value. */
  lemma AfterName(name: string, value: string)
    requires Word(name) && Trimmed(value)
    ensures var rest := name + (" " + value);
      TrimStart(" " + name + " " + value) == rest && WordLength(rest) == |name| < |rest| &&
      rest[..|name|] == name && rest[|name| + 1..] == value
  {
    hide WordLength;
    var after, rest := " " + name + " " + value, name + (" " + value);
    assert after[0] == ' ' && after[1..] == rest;
    assert rest[0] == name[0] && rest[0] in name;
    assert TrimStart(rest) == rest;
    WordEnds(name, " " + value);
  }

  /** `PARAMETER name value` is that name in lower case and that value, out of its quotes. */
  lemma ParameterReads(name: string, value: string)
    requires Word(name) && Trimmed(value)
    ensures ParameterOf(Line(name, value)) == Some((Lower(name), Unquoted(value)))
  {
    hide Lower, Unquoted, Trim, TrimStart, WordLength;
    var line, after := Line(name, value), " " + name + " " + value;
    assert line == PARAMETER + after && line[0] == 'P' && line[|line| - 1] == value[|value| - 1];
    TrimKeeps(line);
    TrimKeeps(value);
    AfterName(name, value);
    assert line[|PARAMETER|..] == after;
  }

  /** And its sampler flag with the value, if the name has one. */
  lemma LineReads(name: string, value: string)
    requires Word(name) && Trimmed(value) && Lower(name) == name && Unquoted(value) == value
    ensures LineArgs(Line(name, value)) ==
            if SamplerFlag(name).Some? then [SamplerFlag(name).value, value] else []
  {
    hide Lower, Unquoted, ParameterOf, SamplerFlag;
    ParameterReads(name, value);
  }

  /** A name of a sampler, as it is written in the parameter lines. */
  ghost predicate Names(name: string, flag: string) {
    Word(name) && Lower(name) == name && SamplerFlag(name) == Some(flag)
  }

  lemma NucleusNames()
    ensures Names("temperature", "--temp") && Names("top_k", "--top-k") && Names("top_p", "--top-p")
  {
  }

  lemma PenaltyNames()
    ensures Names("min_p", "--min-p") && Names("presence_penalty", "--presence-penalty")
    ensures Names("repeat_penalty", "--repeat-penalty") && Names("repeat_last_n", "--repeat-last-n")
  {
  }

  /** A sampler line is told as the flag and the value. */
  lemma Tells(line: string, name: string, value: string, flag: string)
    requires line == Line(name, value) && Names(name, flag)
    requires Trimmed(value) && value[0] != '"' && value[0] != '\''
    ensures LineArgs(line) == [flag, value]
  {
    hide Lower, ParameterOf, SamplerFlag, LineArgs;
    LineReads(name, value);
  }

  lemma TellsNothing(line: string)
    requires Trimmed(line) && (|line| <= 3 || line[3] != 'A')
    ensures LineArgs(line) == []
  {
    assert Trim(line) == line;
    assert PARAMETER[3] == 'A';
  }

  /** Stop texts are no samplers. */
  lemma StopTells(line: string, value: string)
    requires line == Line("stop", value) && Trimmed(value)
    ensures LineArgs(line) == []
  {
    hide ParameterOf, Unquoted;
    ParameterReads("stop", value);
    assert Lower("stop") == "stop";
  }

  lemma TemperatureTells()
    ensures LineArgs("PARAMETER temperature 0.7") == ["--temp", "0.7"]
    ensures LineArgs("PARAMETER temperature 0.6") == ["--temp", "0.6"]
    ensures LineArgs("PARAMETER temperature 0.2") == ["--temp", "0.2"]
  {
    hide LineArgs, Names;
    NucleusNames();
    Tells("PARAMETER temperature 0.7", "temperature", "0.7", "--temp");
    Tells("PARAMETER temperature 0.6", "temperature", "0.6", "--temp");
    Tells("PARAMETER temperature 0.2", "temperature", "0.2", "--temp");
  }

  lemma NucleusTells()
    ensures LineArgs("PARAMETER top_k 20") == ["--top-k", "20"]
    ensures LineArgs("PARAMETER top_p 0.8") == ["--top-p", "0.8"]
    ensures LineArgs("PARAMETER top_p 0.95") == ["--top-p", "0.95"]
  {
    hide LineArgs, Names;
    NucleusNames();
    Tells("PARAMETER top_k 20", "top_k", "20", "--top-k");
    Tells("PARAMETER top_p 0.8", "top_p", "0.8", "--top-p");
    Tells("PARAMETER top_p 0.95", "top_p", "0.95", "--top-p");
  }

  lemma MinimumTells()
    ensures LineArgs("PARAMETER min_p 0") == ["--min-p", "0"]
    ensures LineArgs("PARAMETER min_p 0.05") == ["--min-p", "0.05"]
  {
    hide LineArgs, Names;
    PenaltyNames();
    Tells("PARAMETER min_p 0", "min_p", "0", "--min-p");
    Tells("PARAMETER min_p 0.05", "min_p", "0.05", "--min-p");
  }

  lemma PresenceTells()
    ensures LineArgs("PARAMETER presence_penalty 0") == ["--presence-penalty", "0"]
  {
    hide LineArgs, Names;
    PenaltyNames();
    Tells("PARAMETER presence_penalty 0", "presence_penalty", "0", "--presence-penalty");
  }

  lemma PenaltyTells()
    ensures LineArgs("PARAMETER repeat_penalty 1.05") == ["--repeat-penalty", "1.05"]
  {
    hide LineArgs, Names;
    PenaltyNames();
    Tells("PARAMETER repeat_penalty 1.05", "repeat_penalty", "1.05", "--repeat-penalty");
  }

  lemma StrictPenaltyTells()
    ensures LineArgs("PARAMETER repeat_penalty 1.15") == ["--repeat-penalty", "1.15"]
  {
    hide LineArgs, Names;
    PenaltyNames();
    Tells("PARAMETER repeat_penalty 1.15", "repeat_penalty", "1.15", "--repeat-penalty");
  }

  lemma WindowTells()
    ensures LineArgs("PARAMETER repeat_last_n 4096") == ["--repeat-last-n", "4096"]
  {
    hide LineArgs, Names;
    PenaltyNames();
    Tells("PARAMETER repeat_last_n 4096", "repeat_last_n", "4096", "--repeat-last-n");
  }

  lemma StopsTell()
    ensures LineArgs("PARAMETER stop \"<|im_end|>\"") == []
    ensures LineArgs("PARAMETER stop \"<|im_start|>\"") == []
  {
    hide LineArgs;
    StopTells("PARAMETER stop \"<|im_end|>\"", "\"<|im_end|>\"");
    StopTells("PARAMETER stop \"<|im_start|>\"", "\"<|im_start|>\"");
  }

  lemma EndOfTextTells()
    ensures LineArgs("PARAMETER stop \"<|endoftext|>\"") == []
  {
    hide LineArgs;
    StopTells("PARAMETER stop \"<|endoftext|>\"", "\"<|endoftext|>\"");
  }

  lemma OthersTell()
    ensures LineArgs("RENDERER qwen3-coder") == [] && LineArgs("PARSER qwen3-coder") == []
    ensures forall line <- STRICT_SYSTEM :: LineArgs(line) == []
  {
    hide LineArgs;
    TellsNothing("RENDERER qwen3-coder");
    TellsNothing("PARSER qwen3-coder");
    TellsNothing("SYSTEM \"\"\"");
    TellsNothing("\"\"\"");
    PersonaTells();
  }

  lemma PersonaTells()
    ensures LineArgs(PERSONA) == []
  {
    hide LineArgs;
    var first, last := "You are", " a strict senior software engineer working inside a real repository.";
    assert first[0] == 'Y' && first[3] == ' ' && last[|last| - 1] == '.';
    TellsNothing(PERSONA);
  }

  // ----- the sampler arguments of each parser -----

  const CODER_SAMPLERS := [
    "--temp", "0.7", "--top-k", "20", "--top-p", "0.8", "--repeat-penalty", "1.05"]

  const QWEN36_SAMPLERS := [
    "--temp", "0.7", "--top-k", "20", "--top-p", "0.8", "--min-p", "0", "--presence-penalty", "0",
    "--repeat-penalty", "1.05"]

  const THINK_SAMPLERS := [
    "--temp", "0.6", "--top-k", "20", "--top-p", "0.95"]

  const STRICT_SAMPLERS := [
    "--temp", "0.2", "--top-p", "0.8", "--top-k", "20", "--min-p", "0.05", "--presence-penalty", "0",
    "--repeat-penalty", "1.15", "--repeat-last-n", "4096"]

  lemma NoLines()
    ensures SamplerArgs([]) == []
  {
  }

  lemma Gather(lines: seq<string>, line: string) returns (more: seq<string>)
    ensures more == lines + [line] && SamplerArgs(more) == SamplerArgs(lines) + LineArgs(line)
  {
    hide LineArgs;
    more := lines + [line];
    FlatMapAppend(LineArgs, lines, [line]);
    FlatMapOne(LineArgs, line);
  }

  lemma CoderSamplers()
    ensures SamplerArgs(CODER_LINES) == CODER_SAMPLERS
  {
    hide LineArgs, SamplerArgs;
    TemperatureTells();
    NucleusTells();
    PenaltyTells();
    OthersTell();
    StopsTell();
    EndOfTextTells();
    var lines: seq<string> := [];
    NoLines();
    lines := Gather(lines, CODER_LINES[0]);
    lines := Gather(lines, CODER_LINES[1]);
    lines := Gather(lines, CODER_LINES[2]);
    lines := Gather(lines, CODER_LINES[3]);
    lines := Gather(lines, CODER_LINES[4]);
    lines := Gather(lines, CODER_LINES[5]);
    lines := Gather(lines, CODER_LINES[6]);
    lines := Gather(lines, CODER_LINES[7]);
    lines := Gather(lines, CODER_LINES[8]);
    assert lines == CODER_LINES;
  }

  lemma Qwen36Samplers()
    ensures SamplerArgs(QWEN36_LINES) == QWEN36_SAMPLERS
  {
    hide LineArgs, SamplerArgs;
    TemperatureTells();
    NucleusTells();
    MinimumTells();
    PresenceTells();
    PenaltyTells();
    OthersTell();
    StopsTell();
    var lines: seq<string> := [];
    NoLines();
    lines := Gather(lines, QWEN36_LINES[0]);
    lines := Gather(lines, QWEN36_LINES[1]);
    lines := Gather(lines, QWEN36_LINES[2]);
    lines := Gather(lines, QWEN36_LINES[3]);
    lines := Gather(lines, QWEN36_LINES[4]);
    lines := Gather(lines, QWEN36_LINES[5]);
    lines := Gather(lines, QWEN36_LINES[6]);
    lines := Gather(lines, QWEN36_LINES[7]);
    lines := Gather(lines, QWEN36_LINES[8]);
    lines := Gather(lines, QWEN36_LINES[9]);
    assert lines == QWEN36_LINES;
  }

  lemma ThinkSamplers()
    ensures SamplerArgs(THINK_LINES) == THINK_SAMPLERS
  {
    hide LineArgs, SamplerArgs;
    TemperatureTells();
    NucleusTells();
    OthersTell();
    StopsTell();
    var lines: seq<string> := [];
    NoLines();
    lines := Gather(lines, THINK_LINES[0]);
    lines := Gather(lines, THINK_LINES[1]);
    lines := Gather(lines, THINK_LINES[2]);
    lines := Gather(lines, THINK_LINES[3]);
    lines := Gather(lines, THINK_LINES[4]);
    lines := Gather(lines, THINK_LINES[5]);
    lines := Gather(lines, THINK_LINES[6]);
    assert lines == THINK_LINES;
  }

  lemma StrictParameters()
    ensures SamplerArgs(STRICT_PARAMETERS) == STRICT_SAMPLERS
  {
    hide LineArgs, SamplerArgs;
    TemperatureTells();
    NucleusTells();
    MinimumTells();
    PresenceTells();
    StrictPenaltyTells();
    WindowTells();
    var lines: seq<string> := [];
    NoLines();
    lines := Gather(lines, STRICT_PARAMETERS[0]);
    lines := Gather(lines, STRICT_PARAMETERS[1]);
    lines := Gather(lines, STRICT_PARAMETERS[2]);
    lines := Gather(lines, STRICT_PARAMETERS[3]);
    lines := Gather(lines, STRICT_PARAMETERS[4]);
    lines := Gather(lines, STRICT_PARAMETERS[5]);
    lines := Gather(lines, STRICT_PARAMETERS[6]);
    assert lines == STRICT_PARAMETERS;
  }

  /** The system text of the strict overlay adds no argument. */
  lemma StrictSamplers()
    ensures SamplerArgs(STRICT_LINES) == STRICT_SAMPLERS
  {
    hide LineArgs;
    StrictParameters();
    OthersTell();
    FlatMapAppend(LineArgs, STRICT_PARAMETERS, STRICT_SYSTEM);
    var lines := Gather([], STRICT_SYSTEM[0]);
    lines := Gather(lines, STRICT_SYSTEM[1]);
    lines := Gather(lines, STRICT_SYSTEM[2]);
    assert lines == STRICT_SYSTEM;
  }

  // ----- sampler names -----

  /** The option a name spells: underscores are dashes. */
  function Dashed(name: string): string {
    "--" + seq(|name|, i requires 0 <= i < |name| => if name[i] == '_' then '-' else name[i])
  }

  const CUTOFF_NAMES := ["top_k", "top_p", "min_p"]
  const PENALTY_NAMES := ["repeat_penalty", "repeat_last_n", "presence_penalty", "frequency_penalty"]
  const OTHER_NAMES := ["mirostat", "seed"]
  const DASHED_NAMES := CUTOFF_NAMES + PENALTY_NAMES + OTHER_NAMES

  lemma DashedFlag(name: string, flag: string)
    requires SamplerFlag(name) == Some(flag) && |flag| == |name| + 2 && flag[0] == flag[1] == '-'
    requires forall i :: 0 <= i < |name| ==> flag[i + 2] == if name[i] == '_' then '-' else name[i]
    ensures SamplerFlag(name) == Some(Dashed(name))
  {
    hide SamplerFlag;
    forall i | 0 <= i < |flag| ensures flag[i] == Dashed(name)[i] {
      assert i >= 2 ==> flag[(i - 2) + 2] == Dashed(name)[i];
    }
    assert flag == Dashed(name);
  }

  lemma CutoffsKept(name: string)
    requires name in CUTOFF_NAMES
    ensures SamplerFlag(name) == Some(Dashed(name))
  {
    hide Dashed;
    match name
    case "top_k" => DashedFlag(name, "--top-k");
    case "top_p" => DashedFlag(name, "--top-p");
    case "min_p" => DashedFlag(name, "--min-p");
  }

  lemma PenaltiesKept(name: string)
    requires name in PENALTY_NAMES
    ensures SamplerFlag(name) == Some(Dashed(name))
  {
    hide Dashed;
    match name
    case "repeat_penalty" => DashedFlag(name, "--repeat-penalty");
    case "repeat_last_n" => DashedFlag(name, "--repeat-last-n");
    case "presence_penalty" => DashedFlag(name, "--presence-penalty");
    case "frequency_penalty" => DashedFlag(name, "--frequency-penalty");
  }

  lemma OthersKept(name: string)
    requires name in OTHER_NAMES
    ensures SamplerFlag(name) == Some(Dashed(name))
  {
    hide Dashed;
    match name
    case "mirostat" => DashedFlag(name, "--mirostat");
    case "seed" => DashedFlag(name, "--seed");
  }

  /** Nine samplers keep their name. */
  lemma SamplersKept(name: string)
    requires name in DASHED_NAMES
    ensures SamplerFlag(name) == Some(Dashed(name))
  {
    hide Dashed, SamplerFlag;
    if name in CUTOFF_NAMES {
      CutoffsKept(name);
    } else if name in PENALTY_NAMES {
      PenaltiesKept(name);
    } else {
      OthersKept(name);
    }
  }

  /** Five have another, and no other name is a sampler. */
  lemma SamplersRenamed(name: string)
    requires SamplerFlag(name).Some? && name !in DASHED_NAMES
    ensures (name, SamplerFlag(name).value) in
            [("temperature", "--temp"), ("tfs_z", "--tfs"), ("typical_p", "--typical"),
             ("mirostat_tau", "--mirostat-ent"), ("mirostat_eta", "--mirostat-lr")]
  {
  }

  // ----- who decides -----

  /** The definition may change only where the launch has its say. */
  ghost predicate Hidden(p: Params, at: Placing, d: Def, d': Def) {
    (d.gpuLayers == d'.gpuLayers || (at.gpuLayers.Some? && at.gpuLayers.value > 0)) &&
    (d.cpuMoe == d'.cpuMoe || at.cpuMoe.Some?) && (d.mlock == d'.mlock || p.mlock.Some?) &&
    (d.noMmap == d'.noMmap || p.noMmap.Some?) && (d.flashAttn == d'.flashAttn || p.flashAttn.Some?) &&
    (d.kvK == d'.kvK || NonBlank(p.kvK).Some?) && (d.kvV == d'.kvV || NonBlank(p.kvV).Some?) && d.extra == d'.extra
  }

  lemma PlacementWins(p: Params, at: Placing, d: Def, d': Def)
    requires Hidden(p, at, d, d')
    ensures Placement(d, p, at) == Placement(d', p, at)
  {
    hide Show, Digits;
  }

  /** What the launch asks for, the definition cannot change. */
  lemma LaunchWins(l: Launch, d': Def, at: Placing)
    requires Hidden(l.params, at, l.def, d')
    ensures ServerArgs.ServerArgs(l.(def := d'), at) == ServerArgs.ServerArgs(l, at)
  {
    hide Flatten, ValidKv, NonBlank, Placement, Lower, Show;
    var l' := l.(def := d');
    PlacementWins(l.params, at, l.def, d');
    assert Opening(l') == Opening(l);
    assert Loading(l'.def, l'.params) == Loading(l.def, l.params);
    assert CacheTypes(l'.def, l'.params) == CacheTypes(l.def, l.params);
    assert Options(l', at) == Options(l, at);
    assert Refusal(l') == Refusal(l) && Rest(l') == Rest(l);
  }

  /** The launch with the definition's word wherever it has none of its own. */
  ghost predicate Filled(d: Def, p: Params, p': Params) {
    p' == p.(mlock := if p.mlock.None? then d.mlock else p.mlock,
             noMmap := if p.noMmap.None? then d.noMmap else p.noMmap,
             flashAttn := if p.flashAttn.None? then d.flashAttn else p.flashAttn,
             kvK := if p.kvK.None? then d.kvK else p.kvK, kvV := if p.kvV.None? then d.kvV else p.kvV)
  }

  ghost predicate Placed(d: Def, at: Placing, at': Placing) {
    at' == at.(gpuLayers := if at.gpuLayers.None? then d.gpuLayers else at.gpuLayers,
               cpuMoe := if at.cpuMoe.None? then d.cpuMoe else at.cpuMoe)
  }

  lemma PlacementFills(d: Def, p: Params, p': Params, at: Placing, at': Placing)
    requires Filled(d, p, p') && Placed(d, at, at')
    ensures Placement(d, p', at') == Placement(d, p, at)
  {
    hide Show, Digits;
  }

  lemma TypesFill(d: Def, p: Params, p': Params)
    requires Filled(d, p, p')
    ensures KeyType(d, p') == KeyType(d, p) && ValueType(d, p') == ValueType(d, p)
    ensures p'.extra == p.extra && Split(p') == Split(p)
  {
    hide Blank;
  }

  /** A launch that is silent on an option asks for what the definition says. */
  lemma DefinitionFills(l: Launch, p': Params, at: Placing, at': Placing)
    requires Filled(l.def, l.params, p') && Placed(l.def, at, at')
    ensures ServerArgs.ServerArgs(l.(params := p'), at') == ServerArgs.ServerArgs(l, at)
  {
    hide Flatten, ValidKv, NonBlank, Placement, Lower, Show;
    var l' := l.(params := p');
    PlacementFills(l.def, l.params, p', at, at');
    TypesFill(l.def, l.params, p');
    assert Opening(l') == Opening(l);
    assert Loading(l'.def, l'.params) == Loading(l.def, l.params);
    assert CacheTypes(l'.def, l'.params) == CacheTypes(l.def, l.params);
    assert Options(l', at') == Options(l, at);
    assert Refusal(l') == Refusal(l) && Rest(l') == Rest(l);
  }

  /** So for the options of the tail: what the launch asks for, the definition cannot change. */
  lemma TailLaunchWins(d: TailDef, d': TailDef, p: TailParams, turbo: bool)
    requires d.parser == d'.parser && (d.thinkingPolicy == d'.thinkingPolicy || p.thinkingPolicy.Some?)
    requires (d.strict == d'.strict || p.strict.Some?) && (d.specType == d'.specType || p.specType.Some?)
    ensures Tail(d', p, turbo) == Tail(d, p, turbo)
  {
    hide ParserLines, SpecArgs, SamplerArgs, TemplateArgs, VisionArgs, ReasoningArgs;
  }

  /** And where it is silent it asks for what the definition says. */
  lemma TailDefinitionFills(d: TailDef, p: TailParams, p': TailParams, turbo: bool)
    requires p' == p.(thinkingPolicy := if p.thinkingPolicy.None? then d.thinkingPolicy else p.thinkingPolicy,
                      strict := if p.strict.None? then d.strict else p.strict,
                      specType := if p.specType.None? then d.specType else p.specType)
    ensures Tail(d, p', turbo) == Tail(d, p, turbo)
  {
    hide ParserLines, SpecArgs, SamplerArgs, TemplateArgs, VisionArgs, ReasoningArgs;
  }

  // ----- loading -----

  /** A build that knows load modes is never handed the removed flags, one that does not is handed
      each exactly as asked, and on either no two intents look the same. */
  lemma LoadIntent(mlock: bool, noMmap: bool, flags: LoadFlags)
    ensures var args := LoadArgs(mlock, noMmap, flags);
      (Switch("--mlock") in args <==> mlock && flags == Legacy) &&
      (Switch("--no-mmap") in args <==> noMmap && flags == Legacy) &&
      (Kept("--load-mode", "none") in args <==> !mlock && noMmap && flags == LoadMode) &&
      (Kept("--load-mode", "mmap+mlock") in args <==> mlock && !noMmap && flags == LoadMode) &&
      (Kept("--load-mode", "mlock") in args <==> mlock && noMmap && flags == LoadMode) &&
      |args| == if flags == LoadMode then (if mlock || noMmap then 1 else 0)
                else (if mlock then 1 else 0) + if noMmap then 1 else 0
  {
    assert "none"[0] == 'n' && "mmap+mlock"[1] == 'm' && "mlock"[1] == 'l' && "mlock"[0] == 'm';
    assert "--mlock"[2] == 'm' && "--no-mmap"[2] == 'n';
  }

  // ----- whole launches, written out -----

  lemma FirstItem(item: Item) returns (items: seq<Item>)
    ensures items == [item] && Flatten(items) == Tokens(item)
  {
    items := [item];
    FlatMapOne(Tokens, item);
  }

  lemma NextItem(items: seq<Item>, item: Item) returns (more: seq<Item>)
    ensures more == items + [item] && Flatten(more) == Flatten(items) + Tokens(item)
  {
    more := items + [item];
    FlatMapAppend(Tokens, items, [item]);
    FlatMapOne(Tokens, item);
  }

  lemma {:induction false} Shift(n: nat, d: nat)
    requires n > 0 && d < 10
    ensures Digits(10 * n + d) == Digits(n) + [DigitOf(d)]
  {
  }

  lemma LaunchNumbers()
    ensures Show(65536) == "65536" && Show(8080) == "8080" && Show(999) == "999"
  {
    Shift(6, 5);
    Shift(65, 5);
    Shift(655, 3);
    Shift(6553, 6);
    Shift(8, 0);
    Shift(80, 8);
    Shift(808, 0);
    Shift(9, 9);
    Shift(99, 9);
  }

  const PLAIN_DEF := Def(None, None, None, None, None, None, None, [])
  const PLAIN_PARAMS := Params(None, None, None, None, Legacy, None, None, None, None, None, false, None, None, None,
                               None, [])
  const UNPLACED := Placing(None, None, false, None)
  const QWEN36 := TailDef(Some("qwen36"), None, None, None)
  const PLAIN_TAIL := TailParams(None, None, None, None, None, None, None)

  lemma PlainTypes()
    ensures KeyType(PLAIN_DEF, PLAIN_PARAMS) == ValueType(PLAIN_DEF, PLAIN_PARAMS) == Lower("q8_0") == "q8_0"
    ensures ValidKv("q8_0", false) == None
  {
    assert Lower("q8_0") == "q8_0";
    assert MAINLINE_KV_TYPES[3] == "q8_0";
  }

  lemma PlainParser()
    ensures ParserLines("qwen36") == Some(QWEN36_LINES) && TemplateArgs("qwen36", None) == ["--jinja"]
    ensures ReasoningArgs("strip") ==
            ["--reasoning", "off", "--reasoning-budget", "0", "--reasoning-format", "none"]
  {
    assert ["qwen3coder", "qwen36", "qwen36-think"][1] == "qwen36";
  }

  lemma PlainTail()
    ensures Tail(QWEN36, PLAIN_TAIL, false) ==
            Ok(["--jinja"] + ["--reasoning", "off", "--reasoning-budget", "0", "--reasoning-format", "none"] +
               QWEN36_SAMPLERS)
  {
    hide SamplerArgs, ParserLines, TemplateArgs, ReasoningArgs;
    PlainParser();
    Qwen36Samplers();
    AppendEmpty(QWEN36_LINES, []);
    assert Lines(QWEN36, PLAIN_TAIL) == QWEN36_LINES;
    assert SpecArgs(None, None, None, false) == Ok([]);
    AppendEmpty(["--jinja"], []);
    AppendEmpty(["--jinja"] + ReasoningArgs("strip") + QWEN36_SAMPLERS, []);
  }

  function PlainLaunch(model: string): Launch {
    LaunchOf(PLAIN_DEF, PLAIN_PARAMS, QWEN36, PLAIN_TAIL, model, Ok(Some(65536)), 8080, false)
  }

  lemma PlainOpening(model: string)
    ensures Opening(PlainLaunch(model)) ==
            [Kept("-m", model), Kept("-c", "65536"), Dropped("--host", Some("127.0.0.1")),
             Dropped("--port", Some("8080"))]
  {
    hide Show, Tail;
    LaunchNumbers();
  }

  /** Of what lies between the port and the cache types only the layers are left. */
  lemma PlainMiddle()
    ensures Placement(PLAIN_DEF, PLAIN_PARAMS, UNPLACED) == [Dropped("-ngl", Some("999"))]
    ensures Loading(PLAIN_DEF, PLAIN_PARAMS) == Flash(PLAIN_DEF, PLAIN_PARAMS) == Swa(PLAIN_PARAMS) == []
    ensures CachePrompt(PLAIN_PARAMS) == Split(PLAIN_PARAMS) == []
    ensures Positive("--ubatch-size", None) == Positive("--batch-size", None) == []
    ensures PositiveOther("--threads", None) == PositiveOther("--threads-batch", None) == []
  {
    hide Show;
    LaunchNumbers();
    AppendEmpty([Dropped("-ngl", Some("999"))], []);
  }

  lemma PlainOptions(model: string)
    ensures Options(PlainLaunch(model), UNPLACED) ==
            [Kept("-m", model)] + [Kept("-c", "65536")] + [Dropped("--host", Some("127.0.0.1"))] +
            [Dropped("--port", Some("8080"))] + [Dropped("-ngl", Some("999"))] + [Kept("--cache-type-k", "q8_0")] +
            [Kept("--cache-type-v", "q8_0")]
  {
    hide Show, Tail, KeyType, ValueType, Lower, Opening, Placement, Loading, Flash, Swa, CachePrompt, Split;
    hide Positive, PositiveOther;
    PlainTypes();
    PlainOpening(model);
    PlainMiddle();
    var front := Opening(PlainLaunch(model)) + [Dropped("-ngl", Some("999"))];
    AppendEmpty(front, []);
  }

  function PlainArgs(model: string): seq<string> {
    ["-m", model] + ["-c", "65536"] + ["--host", "127.0.0.1"] + ["--port", "8080"] + ["-ngl", "999"] +
    ["--cache-type-k", "q8_0"] + ["--cache-type-v", "q8_0"]
  }

  lemma PlainTokens(model: string)
    ensures Flatten(Options(PlainLaunch(model), UNPLACED)) == PlainArgs(model)
  {
    hide Flatten, Options;
    PlainOptions(model);
    var items := FirstItem(Kept("-m", model));
    items := NextItem(items, Kept("-c", "65536"));
    items := NextItem(items, Dropped("--host", Some("127.0.0.1")));
    items := NextItem(items, Dropped("--port", Some("8080")));
    items := NextItem(items, Dropped("-ngl", Some("999")));
    items := NextItem(items, Kept("--cache-type-k", "q8_0"));
    items := NextItem(items, Kept("--cache-type-v", "q8_0"));
    assert items == Options(PlainLaunch(model), UNPLACED);
  }

  /** The launch of a qwen36 model with everything left to its default. */
  lemma MinimalLaunch(model: string)
    ensures ServerArgs.ServerArgs(PlainLaunch(model), UNPLACED) ==
            Ok(["-m", model] + ["-c", "65536"] + ["--host", "127.0.0.1"] + ["--port", "8080"] + ["-ngl", "999"] +
               ["--cache-type-k", "q8_0"] + ["--cache-type-v", "q8_0"] +
               (["--jinja"] + ["--reasoning", "off", "--reasoning-budget", "0", "--reasoning-format", "none"] +
                ["--temp", "0.7", "--top-k", "20", "--top-p", "0.8", "--min-p", "0",
                 "--presence-penalty", "0", "--repeat-penalty", "1.05"]))
  {
    hide Flatten, Options, Tail, KeyType, ValueType, ValidKv;
    PlainTypes();
    PlainTail();
    PlainTokens(model);
    AppendEmpty(Tail(QWEN36, PLAIN_TAIL, false).value, []);
  }

  // ----- a launch that asks for everything -----

  const FULL_DEF := Def(None, Some(16), None, Some(true), Some(false), None, None, ["--from-def"])
  const FULL_PARAMS := Params(Some(1), Some(256), Some(true), None, LoadMode, Some(512), Some(512), Some(8), Some(4),
                              Some(true), true, Some(true), Some("row"), Some("Q8_0"), Some("f16"), ["--from-call"])
  const BY_HAND := Placing(Some(20), None, true, Some(1536))
  const CODER := TailDef(Some("qwen3coder"), Some("strip"), None, None)
  const FULL_TAIL := TailParams(Some(File("t.jinja")), Some("proj.gguf"), Some("keep"), Some(true),
                                Some("drafter.gguf"), Some("Draft-Simple"), Some(6))

  function FullLaunch(model: string): Launch {
    LaunchOf(FULL_DEF, FULL_PARAMS, CODER, FULL_TAIL, model, Ok(Some(131072)), 8080, false)
  }

  lemma FullNumbers()
    ensures Show(131072) == "131072" && Show(8080) == "8080" && Show(256) == "256" && Show(512) == "512"
    ensures Show(20) == "20" && Show(16) == "16" && Show(1) == "1" && Show(4) == "4" && Show(6) == "6" && Show(8) == "8"
  {
    LaunchNumbers();
    Shift(1, 3);
    Shift(13, 1);
    Shift(131, 0);
    Shift(1310, 7);
    Shift(13107, 2);
    Shift(2, 5);
    Shift(25, 6);
    Shift(5, 1);
    Shift(51, 2);
    Shift(2, 0);
    Shift(1, 6);
  }

  lemma FullOpening(model: string)
    ensures Opening(FullLaunch(model)) ==
            [Kept("-m", model)] + [Kept("-c", "131072")] +
            [Dropped("--host", Some("127.0.0.1")), Dropped("--port", Some("8080"))] + [Kept("--parallel", "1")] +
            [Dropped("--cache-reuse", Some("256"))]
  {
    hide Show, Tail;
    FullNumbers();
  }

  lemma FullMiddle()
    ensures Placement(FULL_DEF, FULL_PARAMS, BY_HAND) ==
            [Dropped("-ngl", Some("20")), Dropped("--n-cpu-moe", Some("16"))]
    ensures Loading(FULL_DEF, FULL_PARAMS) == [Kept("--load-mode", "mlock")]
    ensures Flash(FULL_DEF, FULL_PARAMS) == [Kept("--flash-attn", "on")]
    ensures Swa(FULL_PARAMS) == [Switch("--swa-full")]
    ensures CachePrompt(FULL_PARAMS) == [Dropped("--cache-prompt", None)]
  {
    hide Show;
    FullNumbers();
  }

  lemma FullBatching()
    ensures Positive("--ubatch-size", Some(512)) == [Kept("--ubatch-size", "512")]
    ensures Positive("--batch-size", Some(512)) == [Kept("--batch-size", "512")]
    ensures PositiveOther("--threads", Some(8)) == [Dropped("--threads", Some("8"))]
    ensures PositiveOther("--threads-batch", Some(4)) == [Dropped("--threads-batch", Some("4"))]
  {
    hide Show;
    FullNumbers();
  }

  lemma FullClosing()
    ensures Split(FULL_PARAMS) == [Kept("--split-mode", "row")]
    ensures KeyType(FULL_DEF, FULL_PARAMS) == "Q8_0" && Lower("Q8_0") == "q8_0" && ValidKv("Q8_0", false) == None
    ensures ValueType(FULL_DEF, FULL_PARAMS) == "f16" && Lower("f16") == "f16" && ValidKv("f16", false) == None
  {
    assert !White("row"[0]) && !White("Q8_0"[0]) && !White("f16"[0]);
    assert Lower("Q8_0") == "q8_0" && Lower("f16") == "f16";
    assert MAINLINE_KV_TYPES[3] == "q8_0" && MAINLINE_KV_TYPES[0] == "f16";
  }

  lemma FullOptions(model: string)
    ensures Options(FullLaunch(model), BY_HAND) ==
            [Kept("-m", model)] + [Kept("-c", "131072")] +
            [Dropped("--host", Some("127.0.0.1")), Dropped("--port", Some("8080"))] + [Kept("--parallel", "1")] +
            [Dropped("--cache-reuse", Some("256"))] +
            [Dropped("-ngl", Some("20")), Dropped("--n-cpu-moe", Some("16"))] + [Kept("--load-mode", "mlock")] +
            [Kept("--ubatch-size", "512")] + [Kept("--batch-size", "512")] + [Dropped("--threads", Some("8"))] +
            [Dropped("--threads-batch", Some("4"))] + [Kept("--flash-attn", "on")] + [Switch("--swa-full")] +
            [Dropped("--cache-prompt", None)] + [Kept("--split-mode", "row")] +
            [Kept("--cache-type-k", "q8_0"), Kept("--cache-type-v", "f16")]
  {
    hide Show, Tail, KeyType, ValueType, Lower, Opening, Placement, Loading, Flash, Swa, CachePrompt, Split;
    hide Positive, PositiveOther;
    FullOpening(model);
    FullMiddle();
    FullBatching();
    FullClosing();
  }

  function FullFront(model: string): seq<string> {
    ["-m", model] + ["-c", "131072"] + (["--host", "127.0.0.1"] + ["--port", "8080"]) + ["--parallel", "1"] +
    ["--cache-reuse", "256"] + (["-ngl", "20"] + ["--n-cpu-moe", "16"]) + ["--load-mode", "mlock"] +
    ["--ubatch-size", "512"] + ["--batch-size", "512"] + ["--threads", "8"] + ["--threads-batch", "4"] +
    ["--flash-attn", "on"] + ["--swa-full"] + ["--cache-prompt"] + ["--split-mode", "row"] +
    (["--cache-type-k", "q8_0"] + ["--cache-type-v", "f16"])
  }

  lemma NextTwo(items: seq<Item>, a: Item, b: Item) returns (more: seq<Item>)
    ensures more == items + [a, b] && Flatten(more) == Flatten(items) + (Tokens(a) + Tokens(b))
  {
    more := items + [a, b];
    FlatMapAppend(Tokens, items, [a, b]);
    FlatMapAppend(Tokens, [a], [b]);
    FlatMapOne(Tokens, a);
    FlatMapOne(Tokens, b);
    assert [a] + [b] == [a, b];
  }

  lemma FullTokens(model: string)
    ensures Flatten(Options(FullLaunch(model), BY_HAND)) == FullFront(model)
  {
    hide Flatten, Options;
    FullOptions(model);
    var items := FirstItem(Kept("-m", model));
    items := NextItem(items, Kept("-c", "131072"));
    items := NextTwo(items, Dropped("--host", Some("127.0.0.1")), Dropped("--port", Some("8080")));
    items := NextItem(items, Kept("--parallel", "1"));
    items := NextItem(items, Dropped("--cache-reuse", Some("256")));
    items := NextTwo(items, Dropped("-ngl", Some("20")), Dropped("--n-cpu-moe", Some("16")));
    items := NextItem(items, Kept("--load-mode", "mlock"));
    items := NextItem(items, Kept("--ubatch-size", "512"));
    items := NextItem(items, Kept("--batch-size", "512"));
    items := NextItem(items, Dropped("--threads", Some("8")));
    items := NextItem(items, Dropped("--threads-batch", Some("4")));
    items := NextItem(items, Kept("--flash-attn", "on"));
    items := NextItem(items, Switch("--swa-full"));
    items := NextItem(items, Dropped("--cache-prompt", None));
    items := NextItem(items, Kept("--split-mode", "row"));
    items := NextTwo(items, Kept("--cache-type-k", "q8_0"), Kept("--cache-type-v", "f16"));
    assert items == Options(FullLaunch(model), BY_HAND);
  }

  lemma FullSpec()
    ensures SpecArgs(Some("Draft-Simple"), Some("drafter.gguf"), Some(6), false) ==
            Ok(["--spec-type", "draft-simple", "--spec-draft-model", "drafter.gguf"] + ["--spec-draft-n-max", "6"])
  {
    hide Show;
    FullNumbers();
    assert Lower("Draft-Simple") == DRAFT_SIMPLE;
    assert !White("drafter.gguf"[0]) && !White("Draft-Simple"[0]);
  }

  lemma FullParser()
    ensures ParserLines("qwen3coder") == Some(CODER_LINES)
    ensures TemplateArgs("qwen3coder", Some(File("t.jinja"))) == ["--chat-template-file", "t.jinja"]
    ensures VisionArgs(Some("proj.gguf")) == ["--mmproj", "proj.gguf"]
    ensures ReasoningArgs("keep") == ["--reasoning", "on", "--reasoning-format", "deepseek"]
  {
    assert !White("proj.gguf"[0]);
  }

  function FullBack(): seq<string> {
    ["--chat-template-file", "t.jinja"] + ["--mmproj", "proj.gguf"] +
    ["--reasoning", "on", "--reasoning-format", "deepseek"] + (CODER_SAMPLERS + STRICT_SAMPLERS) +
    (["--spec-type", "draft-simple", "--spec-draft-model", "drafter.gguf"] + ["--spec-draft-n-max", "6"])
  }

  lemma FullTail()
    ensures Tail(CODER, FULL_TAIL, false) == Ok(FullBack())
  {
    hide SamplerArgs, ParserLines, TemplateArgs, VisionArgs, ReasoningArgs, SpecArgs;
    FullParser();
    FullSpec();
    FullSamplers();
  }

  lemma FullSamplers()
    ensures SamplerArgs(Lines(CODER, FULL_TAIL)) == CODER_SAMPLERS + STRICT_SAMPLERS
  {
    hide LineArgs, ParserLines;
    FullParser();
    CoderSamplers();
    StrictSamplers();
    FlatMapAppend(LineArgs, CODER_LINES, STRICT_LINES);
  }

  /** A launch that asks for everything: each option once, in the server's order, the launch's word before
      the definition's, cache types in lower case, and the extra arguments last. */
  lemma FullLaunchArgs(model: string)
    ensures ServerArgs.ServerArgs(FullLaunch(model), BY_HAND) ==
            Ok(FullFront(model) + (FullBack() + ["--from-def"] + ["--from-call"]))
  {
    hide Flatten, Options, Tail, KeyType, ValueType, ValidKv;
    FullClosing();
    FullTail();
    FullTokens(model);
  }

  // ----- placing, cache types and speculation -----

  /** An unplaced launch is left to a build that can fit it; one raw placement argument takes it back. */
  lemma FitOnlyUnplaced(extra: seq<string>)
    ensures var fit := Placing(None, None, true, Some(1536));
      var d := PLAIN_DEF.(extra := extra);
      Placement(d, PLAIN_PARAMS, fit) ==
      if exists arg <- extra :: arg in PLACEMENT_ARGS then [Dropped("-ngl", Some("999"))]
      else [Dropped("--fit-target", Some("1536"))]
  {
    hide Show, Digits;
    LaunchNumbers();
    FitTarget();
    AppendEmpty(extra, []);
  }

  lemma FitTarget()
    ensures Digits(1536) == "1536" && TARGET == "--fit-target"
  {
    Shift(1, 5);
    Shift(15, 3);
    Shift(153, 6);
  }

  /** Some cache types only one kind of build registers; spelling in capitals changes nothing. */
  lemma TurboTypes()
    ensures ValidKv("turbo4", false) == ValidKv("TURBO4", false) == Some(KvTypeNeedsFork("turbo4"))
    ensures ValidKv("turbo4", true) == ValidKv("TURBO4", true) == None
    ensures forall turbo :: ValidKv("q9", turbo) == Some(UnknownKvType("q9"))
  {
    assert Lower("turbo4") == Lower("TURBO4") == "turbo4" && Lower("q9") == "q9";
    assert TURBO_KV_TYPES[1] == "turbo4";
  }

  /** A multi-token head needs a draft length and a build that has it, and suffers no drafter beside it. */
  lemma HeadSpeculates(draft: string)
    requires !Blank(draft)
    ensures SpecArgs(Some("draft-mtp"), None, Some(4), true) == Err(SpecTypeUnsupported("draft-mtp"))
    ensures SpecArgs(Some("draft-mtp"), None, Some(4), false) ==
            Ok(["--spec-type", "draft-mtp"] + ["--spec-draft-n-max", "4"])
    ensures forall turbo :: SpecArgs(Some("draft-mtp"), None, None, turbo) == Ok([])
    ensures forall n, turbo ::
              SpecArgs(Some("draft-mtp"), Some(draft), n, turbo) == Err(SpecTypeConflictsWithDraft("draft-mtp"))
  {
    hide Trim;
    var mtp := "draft-mtp";
    assert !White(mtp[0]) && mtp[0] == 'd' && mtp[8] == 'p' && NGRAM[0] == 'n';
    assert Lower(mtp) == mtp && MTP_SPEC_TYPES[0] == mtp;
    assert |DRAFT_SIMPLE| == 12 && |mtp| == 9;
    TrimKeeps(mtp);
    assert Show(4) == "4";
  }

  /** Speculation from the context needs no draft length. */
  lemma ContextSpeculates(turbo: bool)
    ensures SpecArgs(Some("ngram-mod"), None, None, turbo) == Ok(["--spec-type", "ngram-mod"])
  {
    hide Trim;
    var spec := "ngram-mod";
    assert !White(spec[0]) && !White(spec[8]);
    TrimKeeps(spec);
    assert Lower(spec) == spec && spec[..6] == NGRAM;
  }
}

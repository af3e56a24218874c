/** The arguments of a launch between the cache types and the extra ones: template,
    projector, reasoning, samplers and speculation, and what the fitter makes of them. */
module ServerTail {
  import opened Decimal
  import opened FitArgs
  import opened ServerArgs
  import opened Text

  /** A chat template, resolved by the caller. */
  datatype Template = File(path: string) | Inline(text: string)

  datatype TailDef = TailDef(
    parser: Option<string>, thinkingPolicy: Option<string>, strict: Option<bool>, specType: Option<string>)

  datatype TailParams = TailParams(
    template: Option<Template>, vision: Option<string>, thinkingPolicy: Option<string>, strict: Option<bool>,
    draft: Option<string>, specType: Option<string>, draftMax: Option<int>)

  // ----- template, projector, reasoning -----

  function TemplateArgs(parser: string, template: Option<Template>): seq<string> {
    match template
    case Some(File(path)) => ["--chat-template-file", path]
    case Some(Inline(text)) => ["--chat-template", text]
    case None => if parser in ["qwen3coder", "qwen36", "qwen36-think"] then ["--jinja"] else []
  }

  function VisionArgs(vision: Option<string>): seq<string> {
    if NonBlank(vision).Some? then ["--mmproj", vision.value] else []
  }

  function ReasoningArgs(policy: string): seq<string> {
    if policy == "keep" then ["--reasoning", "on", "--reasoning-format", "deepseek"]
    else ["--reasoning", "off", "--reasoning-budget", "0", "--reasoning-format", "none"]
  }

  // ----- samplers -----

  const PARAMETER := "PARAMETER"

  const CODER_LINES := [
    "RENDERER qwen3-coder", "PARSER qwen3-coder", "PARAMETER temperature 0.7", "PARAMETER top_k 20",
    "PARAMETER top_p 0.8", "PARAMETER repeat_penalty 1.05", "PARAMETER stop \"<|im_end|>\"",
    "PARAMETER stop \"<|im_start|>\"", "PARAMETER stop \"<|endoftext|>\""]

  const QWEN36_LINES := [
    "RENDERER qwen3-coder", "PARSER qwen3-coder", "PARAMETER temperature 0.7", "PARAMETER top_k 20",
    "PARAMETER top_p 0.8", "PARAMETER min_p 0", "PARAMETER presence_penalty 0", "PARAMETER repeat_penalty 1.05",
    "PARAMETER stop \"<|im_end|>\"", "PARAMETER stop \"<|im_start|>\""]

  const THINK_LINES := [
    "RENDERER qwen3-coder", "PARSER qwen3-coder", "PARAMETER temperature 0.6", "PARAMETER top_k 20",
    "PARAMETER top_p 0.95", "PARAMETER stop \"<|im_end|>\"", "PARAMETER stop \"<|im_start|>\""]

  const PERSONA := "You are" + " a strict senior software engineer working inside a real repository."

  const STRICT_PARAMETERS := [
    "PARAMETER temperature 0.2", "PARAMETER top_p 0.8", "PARAMETER top_k 20", "PARAMETER min_p 0.05",
    "PARAMETER presence_penalty 0", "PARAMETER repeat_penalty 1.15", "PARAMETER repeat_last_n 4096"]

  const STRICT_SYSTEM := ["SYSTEM \"\"\"", PERSONA, "\"\"\""]

  const STRICT_LINES := STRICT_PARAMETERS + STRICT_SYSTEM

  function ParserLines(parser: string): Option<seq<string>> {
    if parser == "none" then Some([])
    else if parser == "qwen3coder" then Some(CODER_LINES)
    else if parser == "qwen36" then Some(QWEN36_LINES)
    else if parser == "qwen36-think" then Some(THINK_LINES)
    else None
  }

  function TrimStart(s: string): string {
    if s != [] && White(s[0]) then TrimStart(s[1..]) else s
  }

  function TrimEnd(s: string): string {
    if s != [] && White(s[|s| - 1]) then TrimEnd(s[..|s| - 1]) else s
  }

  function Trim(s: string): string { TrimEnd(TrimStart(s)) }

  /** How much of a text stands before its first white space. */
  function WordLength(s: string): (n: nat)
    ensures n <= |s|
  {
    if s == [] || White(s[0]) then 0 else 1 + WordLength(s[1..])
  }

  /** One layer of matching quotes is taken off. */
  function Unquoted(s: string): string {
    if |s| >= 2 && (s[0] == '"' || s[0] == '\'') && s[|s| - 1] == s[0] then s[1..|s| - 1] else s
  }

  function SamplerFlag(name: string): Option<string> {
    match name
    case "temperature" => Some("--temp")
    case "top_k" => Some("--top-k")
    case "top_p" => Some("--top-p")
    case "min_p" => Some("--min-p")
    case "repeat_penalty" => Some("--repeat-penalty")
    case "repeat_last_n" => Some("--repeat-last-n")
    case "presence_penalty" => Some("--presence-penalty")
    case "frequency_penalty" => Some("--frequency-penalty")
    case "tfs_z" => Some("--tfs")
    case "typical_p" => Some("--typical")
    case "mirostat" => Some("--mirostat")
    case "mirostat_tau" => Some("--mirostat-ent")
    case "mirostat_eta" => Some("--mirostat-lr")
    case "seed" => Some("--seed")
    case _ => None
  }

  /** The name and value of a parameter line. */
  function ParameterOf(line: string): Option<(string, string)> {
    var text := Trim(line);
    if !(PARAMETER <= text) then None else
    var rest := TrimStart(text[|PARAMETER|..]);
    var n := WordLength(rest);
    if n == |rest| then None else Some((Lower(rest[..n]), Unquoted(Trim(rest[n + 1..]))))
  }

  function LineArgs(line: string): seq<string> {
    var parameter := ParameterOf(line);
    if parameter.None? || SamplerFlag(parameter.value.0).None? then []
    else [SamplerFlag(parameter.value.0).value, parameter.value.1]
  }

  function SamplerArgs(lines: seq<string>): seq<string> { FlatMap(LineArgs, lines) }

  method ParameterArgs(lines: seq<string>) returns (out: seq<string>)
    ensures out == SamplerArgs(lines)
  {
    hide LineArgs;
    out := [];
    for n := 0 to |lines|
      invariant out == SamplerArgs(lines[..n])
    {
      assert lines[..n + 1] == lines[..n] + [lines[n]];
      FlatMapAppend(LineArgs, lines[..n], [lines[n]]);
      FlatMapOne(LineArgs, lines[n]);
      out := out + LineArgs(lines[n]);
    }
    assert lines[..|lines|] == lines;
  }

  // ----- speculation -----

  const DRAFT_SIMPLE := "draft-simple"
  const MTP_SPEC_TYPES := ["draft-mtp", "mtp", "nextn"]
  const NGRAM := "ngram-"

  function DraftMax(n: Option<int>): seq<string> {
    if n.Some? && n.value > 0 then ["--spec-draft-n-max", Show(n.value)] else []
  }

  function SpecArgs(spec: Option<string>, draft: Option<string>, draftMax: Option<int>, turbo: bool)
      : Result<seq<string>> {
    var given := NonBlank(spec);
    if NonBlank(draft).Some? then
      if given.Some? && Lower(given.value) != DRAFT_SIMPLE then Err(SpecTypeConflictsWithDraft(Lower(given.value)))
      else Ok(["--spec-type", DRAFT_SIMPLE, "--spec-draft-model", draft.value] + DraftMax(draftMax))
    else if given.None? then Ok([])
    else if DraftMax(draftMax) != [] then
      if turbo && Lower(given.value) in MTP_SPEC_TYPES then Err(SpecTypeUnsupported(Lower(given.value)))
      else Ok(["--spec-type", given.value] + DraftMax(draftMax))
    else if NGRAM <= Lower(Trim(given.value)) then Ok(["--spec-type", given.value])
    else Ok([])
  }

  // ----- the whole tail -----

  function Parser(d: TailDef): string { OrElse(d.parser, "none") }

  function Policy(d: TailDef, p: TailParams): string { OrElse(Or(p.thinkingPolicy, d.thinkingPolicy), "strip") }

  function Strict(d: TailDef, p: TailParams): bool { OrElse(Or(p.strict, d.strict), false) }

  function SpecOf(d: TailDef, p: TailParams): Option<string> { Or(p.specType, d.specType) }

  function Lines(d: TailDef, p: TailParams): seq<string> {
    OrElse(ParserLines(Parser(d)), []) + if Strict(d, p) then STRICT_LINES else []
  }

  function Tail(d: TailDef, p: TailParams, turbo: bool): Result<seq<string>> {
    if ParserLines(Parser(d)).None? then Err(UnknownParser(Parser(d))) else
    var spec := SpecArgs(SpecOf(d, p), p.draft, p.draftMax, turbo);
    if spec.Err? then spec
    else
      Ok(TemplateArgs(Parser(d), p.template) + VisionArgs(p.vision) + ReasoningArgs(Policy(d, p)) +
         SamplerArgs(Lines(d, p)) + spec.value)
  }

  method BuildSpec(spec: Option<string>, draft: Option<string>, draftMax: Option<int>, turbo: bool)
      returns (r: Result<seq<string>>)
    ensures r == SpecArgs(spec, draft, draftMax, turbo)
  {
    var a: seq<string> := [];
    if draft.Some? && !Blank(draft.value) {
      if spec.Some? && !Blank(spec.value) {
        if Lower(spec.value) != DRAFT_SIMPLE {
          return Err(SpecTypeConflictsWithDraft(Lower(spec.value)));
        }
      }
      a := ["--spec-type", DRAFT_SIMPLE, "--spec-draft-model", draft.value];
      AppendEmpty(a, []);
      if draftMax.Some? && draftMax.value > 0 {
        a := a + ["--spec-draft-n-max", Show(draftMax.value)];
      }
    } else if spec.Some? && !Blank(spec.value) {
      if draftMax.Some? && draftMax.value > 0 {
        if turbo && Lower(spec.value) in MTP_SPEC_TYPES {
          return Err(SpecTypeUnsupported(Lower(spec.value)));
        }
        a := ["--spec-type", spec.value];
        a := a + ["--spec-draft-n-max", Show(draftMax.value)];
      } else if NGRAM <= Lower(Trim(spec.value)) {
        a := ["--spec-type", spec.value];
      }
    }
    r := Ok(a);
  }

  method BuildTail(d: TailDef, p: TailParams, turbo: bool) returns (r: Result<seq<string>>)
    ensures r == Tail(d, p, turbo)
  {
    hide TemplateArgs, VisionArgs, ReasoningArgs, ParserLines, LineArgs, SpecArgs;
    var a := TemplateArgs(Parser(d), p.template) + VisionArgs(p.vision) + ReasoningArgs(Policy(d, p));
    var lines := ParserLines(Parser(d));
    if lines.None? {
      return Err(UnknownParser(Parser(d)));
    }
    ghost var before := a;
    var samplers := ParameterArgs(lines.value);
    a := a + samplers;
    if Strict(d, p) {
      var strict := ParameterArgs(STRICT_LINES);
      a := a + strict;
      FlatMapAppend(LineArgs, lines.value, STRICT_LINES);
      Assoc(before, samplers, strict);
    } else {
      AppendEmpty(lines.value, []);
    }
    var spec := BuildSpec(SpecOf(d, p), p.draft, p.draftMax, turbo);
    if spec.Err? {
      return spec;
    }
    r := Ok(a + spec.value);
  }

  // ----- the launch -----

  /** A launch as the source takes it; the context lookup is its caller's. */
  function LaunchOf(def: Def, params: Params, d: TailDef, p: TailParams, model: string, context: Result<Option<int>>,
                    port: int, turbo: bool): Launch {
    Launch(def, params, model, context, port, turbo, Tail(d, p, turbo))
  }

  /** The whole argument list, or the first refusal. */
  method BuildLlamaServerArgs(def: Def, params: Params, d: TailDef, p: TailParams, model: string,
      context: Result<Option<int>>, port: int, turbo: bool, at: Placing) returns (r: Result<seq<string>>)
    ensures r == ServerArgs.ServerArgs(LaunchOf(def, params, d, p, model, context, port, turbo), at)
  {
    var tail := BuildTail(d, p, turbo);
    r := BuildServerArgs(Launch(def, params, model, context, port, turbo, tail), at);
  }

  // ----- what the fitter makes of the tail -----

  /** The texts of the tail that its callers choose. */
  function ChosenTexts(d: TailDef, p: TailParams): seq<string> {
    TemplateTexts(p.template) + VisionTexts(p.vision) + SpecTexts(SpecOf(d, p), p.draft, p.draftMax)
  }

  function TemplateTexts(template: Option<Template>): seq<string> {
    match template
    case Some(File(path)) => [path]
    case Some(Inline(text)) => [text]
    case None => []
  }

  function VisionTexts(vision: Option<string>): seq<string> {
    if NonBlank(vision).Some? then [vision.value] else []
  }

  function SpecTexts(spec: Option<string>, draft: Option<string>, draftMax: Option<int>): seq<string> {
    if NonBlank(draft).Some? then [draft.value]
    else if NonBlank(spec).Some? && (DraftMax(draftMax) != [] || NGRAM <= Lower(Trim(spec.value))) then [spec.value]
    else []
  }

  ghost predicate AllQuiet(t: seq<string>) { forall token <- t :: Quiet(FITTER, token) }

  /** A memory option begins with a dash. */
  lemma Undashed(s: string)
    requires s == [] || s[0] != '-'
    ensures Quiet(FITTER, s)
  {
    FitterIsSane();
  }

  lemma QuietFlag(f: string, code: Code)
    requires CodeOf(f) == code
    requires code !in SHORT_CODES && code !in LONG_CODES && code !in SWITCH_CODES
    ensures Quiet(FITTER, f)
  {
    Uncoded(f);
  }

  lemma TemplateQuiet()
    ensures Quiet(FITTER, "--chat-template-file") && Quiet(FITTER, "--chat-template") && Quiet(FITTER, "--jinja")
    ensures Quiet(FITTER, "--mmproj")
  {
    QuietFlag("--chat-template-file", Code(20, 'c', 'e'));
    QuietFlag("--chat-template", Code(15, 'c', 'e'));
    QuietFlag("--jinja", Code(7, 'j', 'a'));
    QuietFlag("--mmproj", Code(8, 'm', 'j'));
  }

  lemma ReasoningQuiet(policy: string)
    ensures AllQuiet(ReasoningArgs(policy))
  {
    QuietFlag("--reasoning", Code(11, 'r', 'g'));
    QuietFlag("--reasoning-budget", Code(18, 'r', 't'));
    QuietFlag("--reasoning-format", Code(18, 'r', 't'));
    Undashed("on");
    Undashed("off");
    Undashed("0");
    Undashed("none");
    Undashed("deepseek");
  }

  lemma SpecQuiet()
    ensures Quiet(FITTER, "--spec-type") && Quiet(FITTER, "--spec-draft-model") && Quiet(FITTER, "--spec-draft-n-max")
    ensures Quiet(FITTER, DRAFT_SIMPLE)
  {
    QuietFlag("--spec-type", Code(11, 's', 'e'));
    QuietFlag("--spec-draft-model", Code(18, 's', 'l'));
    QuietFlag("--spec-draft-n-max", Code(18, 's', 'x'));
    Undashed(DRAFT_SIMPLE);
  }

  const SAMPLER_CODES := [
    Code(6, 't', 'p'), Code(7, 't', 'k'), Code(7, 't', 'p'), Code(7, 'm', 'p'), Code(16, 'r', 'y'), Code(15, 'r', 'n'),
    Code(18, 'p', 'y'), Code(19, 'f', 'y'), Code(5, 't', 's'), Code(9, 't', 'l'), Code(10, 'm', 't'),
    Code(14, 'm', 't'), Code(13, 'm', 'r'), Code(6, 's', 'd')]

  lemma SamplerCode(name: string)
    requires SamplerFlag(name).Some?
    ensures CodeOf(SamplerFlag(name).value) in SAMPLER_CODES
  {
  }

  lemma SamplerCodesApart(c: Code)
    requires c in SAMPLER_CODES
    ensures c !in SHORT_CODES && c !in LONG_CODES && c !in SWITCH_CODES
  {
  }

  lemma SamplerFlagQuiet(name: string)
    requires SamplerFlag(name).Some?
    ensures Quiet(FITTER, SamplerFlag(name).value)
  {
    hide SamplerFlag, CodeOf;
    var f := SamplerFlag(name).value;
    SamplerCode(name);
    SamplerCodesApart(CodeOf(f));
    Uncoded(f);
  }

  // ----- no sampler line hides a memory option -----

  ghost predicate Within(part: string, s: string) { forall c <- part :: c in s }

  lemma {:induction false} TrimStartWithin(s: string)
    ensures Within(TrimStart(s), s) && (s != [] && !White(s[0]) ==> TrimStart(s) == s)
  {
    if s != [] && White(s[0]) { TrimStartWithin(s[1..]); }
  }

  lemma {:induction false} TrimEndWithin(s: string)
    ensures Within(TrimEnd(s), s) && TrimEnd(s) <= s
  {
    if s != [] && White(s[|s| - 1]) { TrimEndWithin(s[..|s| - 1]); }
  }

  lemma TrimWithin(s: string)
    ensures Within(Trim(s), s)
  {
    TrimStartWithin(s);
    TrimEndWithin(TrimStart(s));
  }

  lemma SliceWithin(s: string, i: nat, j: nat)
    requires i <= j <= |s|
    ensures Within(s[i..j], s)
  {
  }

  lemma UnquotedWithin(s: string)
    ensures Within(Unquoted(s), s)
  {
    if |s| >= 2 { SliceWithin(s, 1, |s| - 1); }
  }

  /** The value of a parameter is written with the characters of its line. */
  lemma ValueWithin(line: string)
    requires ParameterOf(line).Some?
    ensures Within(ParameterOf(line).value.1, line)
  {
    var text := Trim(line);
    var after := text[|PARAMETER|..];
    var rest := TrimStart(after);
    var n := WordLength(rest);
    var last := rest[n + 1..];
    TrimWithin(line);
    SliceWithin(text, |PARAMETER|, |text|);
    TrimStartWithin(after);
    SliceWithin(rest, n + 1, |rest|);
    TrimWithin(last);
    UnquotedWithin(Trim(last));
    WithinTrans(after, text, line);
    WithinTrans(rest, after, line);
    WithinTrans(last, rest, line);
    WithinTrans(Trim(last), last, line);
    WithinTrans(Unquoted(Trim(last)), Trim(last), line);
  }

  lemma WithinTrans(a: string, b: string, c: string)
    requires Within(a, b) && Within(b, c)
    ensures Within(a, c)
  {
  }

  /** Without a dash in it, or without being a parameter line. */
  predicate Tame(line: string) {
    '-' !in line || (|line| > 3 && !White(line[0]) && line[3] != 'A')
  }

  lemma TameLine(line: string)
    requires Tame(line)
    ensures AllQuiet(LineArgs(line))
  {
    hide SamplerFlag, Quiet;
    if ParameterOf(line).Some? && SamplerFlag(ParameterOf(line).value.0).Some? {
      if |line| > 3 && !White(line[0]) { ParameterHead(line); }
      ValueWithin(line);
      Undashed(ParameterOf(line).value.1);
      SamplerFlagQuiet(ParameterOf(line).value.0);
    }
  }

  lemma ParameterHead(line: string)
    requires ParameterOf(line).Some? && |line| > 3 && !White(line[0])
    ensures line[3] == 'A'
  {
    TrimStartWithin(line);
    TrimEndWithin(line);
    assert PARAMETER[3] == 'A';
  }

  lemma ParserLinesTame(parser: string)
    requires ParserLines(parser).Some?
    ensures forall line <- ParserLines(parser).value :: Tame(line)
  {
    if parser == "qwen3coder" {
      CoderTame();
    } else if parser == "qwen36" {
      Qwen36Tame();
    } else if parser == "qwen36-think" {
      ThinkTame();
    }
  }

  lemma CoderTame()
    ensures forall line <- CODER_LINES :: Tame(line)
  {
  }

  lemma Qwen36Tame()
    ensures forall line <- QWEN36_LINES :: Tame(line)
  {
  }

  lemma ThinkTame()
    ensures forall line <- THINK_LINES :: Tame(line)
  {
  }

  lemma StrictParametersTame()
    ensures forall line <- STRICT_PARAMETERS :: Tame(line)
  {
  }

  lemma StrictSystemTame()
    ensures forall line <- STRICT_SYSTEM :: Tame(line)
  {
    assert "You are"[0] == 'Y' && "You are"[3] == ' ';
    assert Tame(PERSONA);
  }

  lemma StrictTame()
    ensures forall line <- STRICT_LINES :: Tame(line)
  {
    hide Tame;
    StrictParametersTame();
    StrictSystemTame();
  }

  // ----- the tail, for the fitter -----

  lemma QuietPlus(a: seq<string>, b: seq<string>)
    ensures AllQuiet(a + b) <==> AllQuiet(a) && AllQuiet(b)
  {
    hide Quiet;
    assert forall token :: token in a + b <==> token in a || token in b;
  }

  lemma {:induction false} SamplersQuiet(lines: seq<string>)
    requires forall line <- lines :: Tame(line)
    ensures AllQuiet(SamplerArgs(lines))
  {
    hide Tame, LineArgs, Quiet;
    if lines != [] {
      TameLine(lines[0]);
      SamplersQuiet(lines[1..]);
    }
  }

  lemma LinesQuiet(d: TailDef, p: TailParams)
    requires ParserLines(Parser(d)).Some?
    ensures AllQuiet(SamplerArgs(Lines(d, p)))
  {
    hide Tame, ParserLines, AllQuiet;
    ParserLinesTame(Parser(d));
    StrictTame();
    SamplersQuiet(Lines(d, p));
  }

  lemma DraftMaxQuiet(n: Option<int>)
    ensures AllQuiet(DraftMax(n))
  {
    SpecQuiet();
    if n.Some? { NumberQuiet(n.value); }
  }

  lemma NumberQuiet(n: int)
    ensures Quiet(FITTER, Show(n))
  {
    FitterIsSane();
    ShownIsNoFlag(n);
  }

  lemma SpecArgsQuiet(spec: Option<string>, draft: Option<string>, draftMax: Option<int>, turbo: bool)
    requires SpecArgs(spec, draft, draftMax, turbo).Ok?
    ensures AllQuiet(SpecArgs(spec, draft, draftMax, turbo).value) <==> AllQuiet(SpecTexts(spec, draft, draftMax))
  {
    hide Quiet, DraftMax;
    SpecQuiet();
    DraftMaxQuiet(draftMax);
  }

  lemma OpeningArgsQuiet(parser: string, p: TailParams)
    ensures AllQuiet(TemplateArgs(parser, p.template)) <==> AllQuiet(TemplateTexts(p.template))
    ensures AllQuiet(VisionArgs(p.vision)) <==> AllQuiet(VisionTexts(p.vision))
  {
    hide Quiet;
    TemplateQuiet();
  }

  lemma TailQuiet(d: TailDef, p: TailParams, turbo: bool)
    requires Tail(d, p, turbo).Ok?
    ensures AllQuiet(Tail(d, p, turbo).value) <==> AllQuiet(ChosenTexts(d, p))
  {
    hide AllQuiet, TemplateArgs, VisionArgs, ReasoningArgs, SamplerArgs, SpecArgs;
    hide TemplateTexts, VisionTexts, SpecTexts;
    var (template, vision, reasoning) :=
      (TemplateArgs(Parser(d), p.template), VisionArgs(p.vision), ReasoningArgs(Policy(d, p)));
    var (samplers, spec) := (SamplerArgs(Lines(d, p)), SpecArgs(SpecOf(d, p), p.draft, p.draftMax, turbo).value);
    OpeningArgsQuiet(Parser(d), p);
    ReasoningQuiet(Policy(d, p));
    LinesQuiet(d, p);
    SpecArgsQuiet(SpecOf(d, p), p.draft, p.draftMax, turbo);
    QuietPlus(template, vision);
    QuietPlus(template + vision, reasoning);
    QuietPlus(template + vision + reasoning, samplers);
    QuietPlus(template + vision + reasoning + samplers, spec);
    QuietPlus(TemplateTexts(p.template), VisionTexts(p.vision));
    QuietPlus(TemplateTexts(p.template) + VisionTexts(p.vision), SpecTexts(SpecOf(d, p), p.draft, p.draftMax));
  }

  /** The fitter is shown nothing of the tail exactly when no template, path or
      speculation type its callers chose is itself a memory option. */
  lemma TailUnseen(d: TailDef, p: TailParams, turbo: bool, rest: seq<string>)
    requires Tail(d, p, turbo).Ok?
    ensures var tail := Tail(d, p, turbo).value;
      (Fitted(FITTER, tail) == [] <==> AllQuiet(ChosenTexts(d, p))) &&
      (AllQuiet(ChosenTexts(d, p)) ==> Fitted(FITTER, tail + rest) == Fitted(FITTER, rest))
  {
    hide Tail, ChosenTexts, Quiet, Fitted;
    var tail := Tail(d, p, turbo).value;
    FitterFlagsOnly();
    TailQuiet(d, p, turbo);
    NothingShown(FITTER, tail);
    if AllQuiet(tail) { QuietTokens(FITTER, tail, rest); }
  }

  /** A chat template that reads "--mlock" reaches the fitter as an option. */
  lemma TemplateIsShown()
    ensures var tail := Tail(TailDef(None, None, None, None),
                             TailParams(Some(Inline("--mlock")), None, None, None, None, None, None), false);
      tail.Ok? && Fitted(FITTER, tail.value) != []
  {
    var d := TailDef(None, None, None, None);
    var p := TailParams(Some(Inline("--mlock")), None, None, None, None, None, None);
    hide SamplerArgs, Fitted;
    TailUnseen(d, p, false, []);
    assert "--mlock" in FITTER.switches;
    assert ChosenTexts(d, p)[0] == "--mlock" && ChosenTexts(d, p)[0] in ChosenTexts(d, p);
  }

  /** Of a launch whose chosen texts are no memory options the fitter is shown its
      memory options, the memory options of the extra arguments, and the target. */
  lemma LaunchSeen(def: Def, params: Params, d: TailDef, p: TailParams, model: string, context: Result<Option<int>>,
      port: int, turbo: bool, at: Placing, margin: nat)
    requires AllQuiet(ChosenTexts(d, p))
    ensures var l := LaunchOf(def, params, d, p, model, context, port, turbo);
      Refusal(l).None? ==>
        Shown(l, at, margin) ==
        Ok(Flatten(MemoryOptions(l)) + Fitted(FITTER, def.extra + params.extra) + Target(margin))
  {
    hide Tail, ChosenTexts, MemoryOptions, Fitted, Shown, ValidKv;
    var l := LaunchOf(def, params, d, p, model, context, port, turbo);
    FitterSees(l, at, margin);
    if Refusal(l).None? {
      TailUnseen(d, p, turbo, def.extra + params.extra);
      Assoc(Tail(d, p, turbo).value, def.extra, params.extra);
    }
  }
}

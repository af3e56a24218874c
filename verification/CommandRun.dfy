/** One gated command, from the gate's decision to the end: the order of
    spawn, stop, kill, release and confirmation under every answer of the
    environment, and when the caller abandons the run at any await. */
module CommandRun {
  import opened Text

  datatype End = Exited(success: bool) | Denied | NotStarted | TimedOut | Cancelled | WaitFailed

  /** What is known of the process tree afterwards. */
  datatype Cleanup = NothingStarted | Unverified | Confirmed

  /** An effect on the host, in the order they happen. */
  datatype Act =
    | Asked(granted: bool)
    | Spawned(owned: bool)
    | SpawnFailed
    | StopRequested      // guard.request_stop
    | Reaped             // gate.reap
    | Killed             // child.start_kill
    | ChildReleased      // the child handle is dropped
    | ConfirmAsked       // guard.confirm_stopped
    | GuardDropped

  /** The effects so far, latest last. */
  datatype Trace = Silence | Then(past: Trace, act: Act) {
    function And(act: Act): Trace { Then(this, act) }

    function AndIf(happens: bool, act: Act): Trace { if happens then Then(this, act) else this }

    function Count(x: Act): nat {
      match this
      case Silence => 0
      case Then(past, act) => past.Count(x) + Once(act == x)
    }

    predicate Has(x: Act) { Count(x) > 0 }

    /** The asking and the spawn come first, whatever follows. */
    predicate Opens(owned: bool) {
      match this
      case Silence => false
      case Then(past, act) => past.Opens(owned) || this == Silence.And(Asked(true)).And(Spawned(owned))
    }
  }

  function Once(b: bool): nat { if b then 1 else 0 }

  /** Where the run is suspended. */
  datatype Stage =
    | Asking | Waiting | Stopping | Reaping | Killing | Confirming
    | DrainingOut | DrainingErr | LateReaping
    | Complete | Abandoned

  datatype Spawn = NoChild | Unmanaged(pid: bool) | Owned(pid: bool)

  /** The environment's answer at an await; `cancelled` is the flag read once the gate has answered.
      `Confirmation(None)` is a confirmation that timed out. */
  datatype Answer =
    | Gate(granted: bool, cancelled: bool, spawn: Spawn)
    | Ended(end: End)
    | Elapsed
    | Confirmation(answer: Option<Cleanup>)
    | Pipe(closed: bool)
    | Abandon

  /** `pid` is whether the child's id is known; `child` and `guard` whether they are held. */
  datatype State = State(stage: Stage, end: End, owned: bool, pid: bool, child: bool, guard: bool,
                         outClosed: bool, pipesClosed: bool, cleanup: Cleanup, trace: Trace)

  const START := State(Asking, Denied, false, false, false, false, true, true, NothingStarted, Silence)

  predicate Stopped(end: End) { end == TimedOut || end == Cancelled }

  /** How a wait can end. */
  predicate EndsWait(end: End) { end != Denied && end != NotStarted }

  /** How a run can end that never waited. */
  predicate Refused(end: End) { end == Denied || end == Cancelled || end == NotStarted }

  function Log(s: State, act: Act): State { s.(trace := s.trace.And(act)) }

  // ----- the stretches of code between awaits -----

  function Decided(s: State, granted: bool, cancelled: bool, spawn: Spawn): State {
    var asked := Log(s, Asked(granted));
    if !granted then asked.(stage := Complete, end := Denied)
    else if cancelled then asked.(stage := Complete, end := Cancelled)
    else if spawn.NoChild? then Log(asked, SpawnFailed).(stage := Complete, end := NotStarted)
    else
      Log(asked, Spawned(spawn.Owned?))
        .(stage := Waiting, owned := spawn.Owned?, pid := spawn.pid, child := true, guard := spawn.Owned?)
  }

  function AfterWait(s: State, end: End): State {
    var s := s.(end := end);
    if s.owned then Log(s, StopRequested).(stage := Stopping)
    else if Stopped(end) && s.pid then Log(s, Reaped).(stage := Reaping)
    else AfterStop(s)
  }

  function AfterStop(s: State): State {
    if Stopped(s.end) then Log(s, Killed).(stage := Killing) else AfterKill(s)
  }

  function AfterKill(s: State): State {
    var s := Log(s, ChildReleased).(child := false);
    if s.owned then Log(s, ConfirmAsked).(stage := Confirming)
    else s.(stage := DrainingOut, cleanup := Unverified)
  }

  function AfterDrain(s: State, closed: bool): State {
    var s := s.(pipesClosed := s.outClosed && closed);
    if !s.pipesClosed && !Stopped(s.end) && !s.owned && s.pid then Log(s, Reaped).(stage := LateReaping)
    else Return(s)
  }

  function Return(s: State): State {
    DropGuard(s).(stage := Complete)
  }

  function DropGuard(s: State): State {
    if s.guard then Log(s, GuardDropped).(guard := false) else s
  }

  function DropChild(s: State): State {
    if s.child then Log(s, ChildReleased).(child := false) else s
  }

  /** `None` when the run is over or is not waiting for this answer. */
  function Step(s: State, a: Answer): Option<State> {
    match (s.stage, a)
    case (Complete, _) => None
    case (Abandoned, _) => None
    case (_, Abandon) => Some(DropChild(DropGuard(s)).(stage := Abandoned))
    case (Asking, Gate(granted, cancelled, spawn)) => Some(Decided(s, granted, cancelled, spawn))
    case (Waiting, Ended(end)) => if EndsWait(end) then Some(AfterWait(s, end)) else None
    case (Stopping, Elapsed) => Some(AfterStop(s))
    case (Reaping, Elapsed) => Some(AfterStop(s))
    case (Killing, Elapsed) => Some(AfterKill(s))
    case (Confirming, Confirmation(answer)) =>
      Some(s.(stage := DrainingOut, cleanup := if answer.Some? then answer.value else Unverified))
    case (DrainingOut, Pipe(closed)) => Some(s.(stage := DrainingErr, outClosed := closed))
    case (DrainingErr, Pipe(closed)) => Some(AfterDrain(s, closed))
    case (LateReaping, Elapsed) => Some(Return(s))
    case _ => None
  }

  function Run(s: State, answers: seq<Answer>): Option<State>
    decreases |answers|
  {
    if answers == [] then Some(s)
    else match Step(s, answers[0])
      case None => None
      case Some(next) => Run(next, answers[1..])
  }

  // ----- what every run keeps -----

  predicate LateReap(s: State) {
    !s.pipesClosed && !Stopped(s.end) && !s.owned && s.pid
  }

  /** How far a spawned run has come. */
  function Level(stage: Stage): nat {
    match stage
    case Stopping => 1
    case Reaping => 1
    case Killing => 2
    case Confirming => 3
    case DrainingOut => 3
    case DrainingErr => 3
    case LateReaping => 4
    case Complete => 5
    case _ => 0
  }

  function StopEffects(level: nat, s: State): Trace {
    Silence.And(Asked(true)).And(Spawned(s.owned))
      .AndIf(level >= 1 && s.owned, StopRequested)
      .AndIf(level >= 1 && !s.owned && Stopped(s.end) && s.pid, Reaped)
      .AndIf(level >= 2 && Stopped(s.end), Killed)
  }

  function EndEffects(level: nat, s: State, before: Trace): Trace {
    before
      .AndIf(level >= 3, ChildReleased)
      .AndIf(level >= 3 && s.owned, ConfirmAsked)
      .AndIf(level >= 4 && LateReap(s), Reaped)
      .AndIf(level >= 5 && s.owned, GuardDropped)
  }

  /** The effects so far of a run that spawned and has not been abandoned. */
  function Effects(s: State): Trace {
    EndEffects(Level(s.stage), s, StopEffects(Level(s.stage), s))
  }

  /** Suspended after the spawn. */
  predicate Underway(stage: Stage) { stage != Asking && stage != Complete && stage != Abandoned }

  predicate HoldsChild(stage: Stage) { stage == Waiting || stage == Stopping || stage == Reaping || stage == Killing }

  /** Suspended somewhere after the spawn, holding what that stage holds. */
  predicate Standing(s: State) {
    Underway(s.stage) && s.guard == s.owned &&
    s.child == HoldsChild(s.stage) &&
    (s.stage != Waiting ==> EndsWait(s.end)) &&
    (s.stage == Stopping ==> s.owned) &&
    (s.stage == Reaping ==> !s.owned && Stopped(s.end) && s.pid) &&
    (s.stage == Killing ==> Stopped(s.end)) &&
    (s.stage == Confirming ==> s.owned) &&
    (s.stage == LateReaping ==> LateReap(s))
  }

  predicate Live(s: State) {
    Standing(s) && s.trace == Effects(s)
  }

  /** The effects of a run that spawned nothing. */
  function Refusal(end: End): Trace {
    match end
    case Denied => Silence.And(Asked(false))
    case Cancelled => Silence.And(Asked(true))
    case _ => Silence.And(Asked(true)).And(SpawnFailed)
  }

  predicate NeverStarted(s: State) {
    s.stage == Complete && !s.owned && s.cleanup == NothingStarted && s.pipesClosed && !s.child && !s.guard &&
    Refused(s.end) && s.trace == Refusal(s.end)
  }

  predicate RanThrough(s: State) {
    s.stage == Complete && s.trace == Effects(s) && EndsWait(s.end) && !s.child && !s.guard
  }

  function Abandoning(s: State): State {
    DropChild(DropGuard(s)).(stage := Abandoned)
  }

  ghost predicate Invariant(s: State) {
    s == START || Live(s) || NeverStarted(s) || RanThrough(s) ||
    exists before :: (before == START || Live(before)) && s == Abandoning(before)
  }

  /** Past the confirmation, if there was one to ask for. */
  predicate PastConfirmation(s: State) {
    s.stage == DrainingOut || s.stage == DrainingErr || s.stage == LateReaping || s.stage == Complete
  }

  function Said(a: Answer): seq<Option<Cleanup>> { if a.Confirmation? then [a.answer] else [] }

  /** The guard is asked at most once, and its answer, and only it, decides the cleanup of an owned run. */
  predicate Heard(s: State, seen: seq<Answer>) {
    var said := FlatMap(Said, seen);
    if PastConfirmation(s) && s.owned then
      |said| == 1 && s.cleanup == if said[0].Some? then said[0].value else Unverified
    else (s.stage == Abandoned || said == []) && (PastConfirmation(s) ==> s.cleanup == Unverified || NeverStarted(s))
  }

  lemma StartStep(a: Answer)
    requires a.Gate?
    ensures var next := Step(START, a).value; Live(next) || NeverStarted(next)
  {
  }

  lemma StandingStep(s: State, a: Answer)
    requires Standing(s) && Step(s, a).Some? && !a.Abandon?
    ensures var next := Step(s, a).value;
      Standing(next) || (next.stage == Complete && EndsWait(next.end) && !next.child && !next.guard)
  {
  }

  lemma LiveStep(s: State, a: Answer)
    requires Live(s) && Step(s, a).Some? && !a.Abandon?
    ensures var next := Step(s, a).value; Live(next) || RanThrough(next)
  {
    StandingStep(s, a);
  }

  lemma StepKeepsInvariant(s: State, a: Answer)
    requires Invariant(s) && Step(s, a).Some?
    ensures Invariant(Step(s, a).value)
  {
    if a.Abandon? {
      assert Step(s, a).value == Abandoning(s);
    } else if s == START {
      StartStep(a);
    } else {
      LiveStep(s, a);
    }
  }

  lemma StartHears(a: Answer, seen: seq<Answer>)
    requires a.Gate? && Heard(START, seen)
    ensures Heard(Step(START, a).value, seen + [a])
  {
    FlatMapAppend(Said, seen, [a]);
    FlatMapOne(Said, a);
  }

  lemma StandingHears(s: State, a: Answer, seen: seq<Answer>)
    requires Standing(s) && Step(s, a).Some? && Heard(s, seen)
    ensures Heard(Step(s, a).value, seen + [a])
  {
    FlatMapAppend(Said, seen, [a]);
    FlatMapOne(Said, a);
    AppendEmpty(FlatMap(Said, seen), []);
  }

  lemma StepHears(s: State, a: Answer, seen: seq<Answer>)
    requires Invariant(s) && Step(s, a).Some? && Heard(s, seen)
    ensures Heard(Step(s, a).value, seen + [a])
  {
    if !a.Abandon? {
      if s == START {
        StartHears(a, seen);
      } else {
        StandingHears(s, a, seen);
      }
    }
  }

  lemma {:induction false} RunKeeps(s: State, seen: seq<Answer>, answers: seq<Answer>)
    requires Invariant(s) && Heard(s, seen) && Run(s, answers).Some?
    ensures Invariant(Run(s, answers).value) && Heard(Run(s, answers).value, seen + answers)
    decreases |answers|
  {
    if answers == [] {
      AppendEmpty(seen, answers);
    } else {
      var a, later := answers[0], answers[1..];
      StepKeepsInvariant(s, a);
      StepHears(s, a, seen);
      RunKeeps(Step(s, a).value, seen + [a], later);
      Assoc(seen, [a], later);
      assert answers == [a] + later;
    }
  }

  predicate HasSpawned(trace: Trace) { trace.Has(Spawned(true)) || trace.Has(Spawned(false)) }

  lemma EffectsSpawn(s: State)
    requires s.trace == Effects(s)
    ensures s.trace.Has(Spawned(s.owned)) && !s.trace.Has(Spawned(!s.owned))
  {
    EffectsCounts(s, Spawned(s.owned));
    EffectsCounts(s, Spawned(!s.owned));
  }

  // ----- what the answers decide -----

  /** The gate's answer starts a command. */
  predicate Starts(a: Answer) { a.Gate? && a.granted && !a.cancelled && !a.spawn.NoChild? }

  function Closings(a: Answer): seq<bool> { if a.Pipe? then [a.closed] else [] }

  /** The pipes heard of so far, standard output first. */
  predicate PipesHeard(s: State, seen: seq<Answer>) {
    var closings := FlatMap(Closings, seen);
    if s.stage == DrainingErr then closings == [s.outClosed]
    else if s.stage == LateReaping || s.stage == Complete then
      |closings| == 2 && s.pipesClosed == (closings[0] && closings[1])
    else closings == []
  }

  predicate Started(s: State) { Live(s) || RanThrough(s) }

  /** The run is as its gate, its wait and its pipes answered. */
  predicate Recalls(s: State, seen: seq<Answer>) {
    if s.stage == Abandoned then true
    else if s.stage == Asking then seen == []
    else if seen == [] || !seen[0].Gate? then false
    else if !Starts(seen[0]) then
      s.stage == Complete && |seen| == 1 && NeverStarted(s) &&
      s.end == if !seen[0].granted then Denied else if seen[0].cancelled then Cancelled else NotStarted
    else
      Started(s) && s.owned == seen[0].spawn.Owned? && s.pid == seen[0].spawn.pid && PipesHeard(s, seen) &&
      if s.stage == Waiting then |seen| == 1 else |seen| >= 2 && seen[1] == Ended(s.end)
  }

  lemma StartRecalls(a: Answer)
    requires a.Gate?
    ensures Recalls(Step(START, a).value, [a])
  {
    StartStep(a);
    FlatMapOne(Closings, a);
  }

  lemma StandingPipes(s: State, a: Answer, seen: seq<Answer>)
    requires Standing(s) && Step(s, a).Some? && !a.Abandon? && PipesHeard(s, seen)
    ensures PipesHeard(Step(s, a).value, seen + [a])
  {
    FlatMapAppend(Closings, seen, [a]);
    FlatMapOne(Closings, a);
    AppendEmpty(FlatMap(Closings, seen), []);
  }

  lemma StandingKeeps(s: State, a: Answer)
    requires Standing(s) && Step(s, a).Some? && !a.Abandon?
    ensures Step(s, a).value.owned == s.owned && Step(s, a).value.pid == s.pid
    ensures if s.stage == Waiting then a == Ended(Step(s, a).value.end) else Step(s, a).value.end == s.end
  {
  }

  lemma StandingGoesOn(s: State, a: Answer)
    requires Standing(s) && Step(s, a).Some? && !a.Abandon?
    ensures Underway(Step(s, a).value.stage) || Step(s, a).value.stage == Complete
    ensures Step(s, a).value.stage != Waiting
  {
  }

  lemma StandingRecalls(s: State, a: Answer, seen: seq<Answer>)
    requires Standing(s) && Step(s, a).Some? && !a.Abandon? && Recalls(s, seen) && Started(Step(s, a).value)
    ensures Recalls(Step(s, a).value, seen + [a])
  {
    hide Started, PipesHeard, Step;
    StandingKeeps(s, a);
    StandingGoesOn(s, a);
    StandingPipes(s, a, seen);
    assert (seen + [a])[0] == seen[0];
    assert (seen + [a])[1] == if |seen| == 1 then a else seen[1];
  }

  lemma {:induction false} RunRecalls(s: State, seen: seq<Answer>, answers: seq<Answer>)
    requires Invariant(s) && Recalls(s, seen) && Run(s, answers).Some?
    ensures Recalls(Run(s, answers).value, seen + answers)
    decreases |answers|
  {
    hide Recalls, Invariant, Step;
    if answers == [] {
      AppendEmpty(seen, answers);
    } else {
      var a, later := answers[0], answers[1..];
      StepKeepsInvariant(s, a);
      StepRecalls(s, a, seen);
      RunRecalls(Step(s, a).value, seen + [a], later);
      Assoc(seen, [a], later);
      assert answers == [a] + later;
    }
  }

  lemma StepRecalls(s: State, a: Answer, seen: seq<Answer>)
    requires Invariant(s) && Recalls(s, seen) && Step(s, a).Some?
    ensures Recalls(Step(s, a).value, seen + [a])
  {
    hide Effects, Refusal, StopEffects, EndEffects;
    if !a.Abandon? {
      if s == START {
        AppendEmpty([a], seen);
        StartRecalls(a);
      } else {
        LiveStep(s, a);
        StandingRecalls(s, a, seen);
      }
    }
  }

  lemma {:induction false} ClosingsIn(answers: seq<Answer>)
    ensures false in FlatMap(Closings, answers) <==> Pipe(false) in answers
  {
    if answers != [] {
      ClosingsIn(answers[1..]);
      assert answers == [answers[0]] + answers[1..];
    }
  }

  /** The effects of a command that was started and has ended, as its environment answered. */
  function EndedEffects(spawn: Spawn, end: End, leaky: bool): Trace
    requires !spawn.NoChild?
  {
    var started := Silence.And(Asked(true)).And(Spawned(spawn.Owned?));
    if spawn.Owned? then
      started.And(StopRequested).AndIf(Stopped(end), Killed).And(ChildReleased).And(ConfirmAsked).And(GuardDropped)
    else if Stopped(end) then started.AndIf(spawn.pid, Reaped).And(Killed).And(ChildReleased)
    else started.And(ChildReleased).AndIf(leaky && spawn.pid, Reaped)
  }

  /** Runs that end on their own, told by what the environment answered: how they ended,
      whether the pipes closed, and every effect, exactly as often and in the order given. */
  lemma CompleteRun(answers: seq<Answer>)
    requires Run(START, answers).Some? && Run(START, answers).value.stage == Complete
    ensures answers != [] && answers[0].Gate?
    ensures var (s, gate) := (Run(START, answers).value, answers[0]);
      if Starts(gate) then
        |answers| >= 2 && answers[1] == Ended(s.end) && (s.pipesClosed <==> Pipe(false) !in answers) &&
        s.trace == EndedEffects(gate.spawn, s.end, Pipe(false) in answers)
      else
        s.pipesClosed &&
        if !gate.granted then s.end == Denied && s.trace == Silence.And(Asked(false))
        else if gate.cancelled then s.end == Cancelled && s.trace == Silence.And(Asked(true))
        else s.end == NotStarted && s.trace == Silence.And(Asked(true)).And(SpawnFailed)
  {
    RunKeeps(START, [], answers);
    RunRecalls(START, [], answers);
    AppendEmpty(answers, []);
    hide Run, Step, Effects, Invariant, Heard, EndedEffects;
    var s := Run(START, answers).value;
    CompleteRecalls(s, answers);
    if Starts(answers[0]) { StartedEnds(s, answers); }
  }

  lemma CompleteRecalls(s: State, answers: seq<Answer>)
    requires s.stage == Complete && Recalls(s, answers) && Invariant(s)
    ensures answers != [] && answers[0].Gate?
    ensures if Starts(answers[0]) then RanThrough(s) && |answers| >= 2 && answers[1] == Ended(s.end)
            else NeverStarted(s)
    ensures !Starts(answers[0]) ==>
      s.end == if !answers[0].granted then Denied else if answers[0].cancelled then Cancelled else NotStarted
  {
    hide Effects, PipesHeard;
  }

  lemma StartedEnds(s: State, answers: seq<Answer>)
    requires RanThrough(s) && Recalls(s, answers) && answers != [] && Starts(answers[0])
    ensures s.pipesClosed <==> Pipe(false) !in answers
    ensures s.trace == EndedEffects(answers[0].spawn, s.end, Pipe(false) in answers)
  {
    hide Effects, EndedEffects;
    ClosingsIn(answers);
    EffectsEnded(s);
    assert answers[0].spawn == if s.owned then Owned(s.pid) else Unmanaged(s.pid);
  }

  lemma EffectsEnded(s: State)
    requires RanThrough(s)
    ensures var spawn := if s.owned then Owned(s.pid) else Unmanaged(s.pid);
      s.trace == EndedEffects(spawn, s.end, !s.pipesClosed)
  {
  }

  lemma NeverStartedSpawn(s: State)
    requires NeverStarted(s)
    ensures !HasSpawned(s.trace)
  {
    var asked := Silence.And(Asked(true));
    assert asked.Count(Spawned(true)) == asked.Count(Spawned(false)) == 0;
  }

  // ----- counting effects -----

  lemma AndIfCounts(t: Trace, happens: bool, act: Act, x: Act, owned: bool)
    ensures t.AndIf(happens, act).Count(x) == t.Count(x) + Once(happens && act == x)
    ensures t.Opens(owned) ==> t.AndIf(happens, act).Opens(owned)
  {
  }

  lemma StopCounts(level: nat, s: State, x: Act)
    ensures StopEffects(level, s).Opens(s.owned)
    ensures StopEffects(level, s).Count(x) ==
      Once(x == Asked(true)) + Once(x == Spawned(s.owned)) + Once(level >= 1 && s.owned && x == StopRequested) +
      Once(level >= 1 && !s.owned && Stopped(s.end) && s.pid && x == Reaped) +
      Once(level >= 2 && Stopped(s.end) && x == Killed)
  {
    var started := Silence.And(Asked(true)).And(Spawned(s.owned));
    var stop := started.AndIf(level >= 1 && s.owned, StopRequested);
    var reap := stop.AndIf(level >= 1 && !s.owned && Stopped(s.end) && s.pid, Reaped);
    AndIfCounts(Silence, true, Asked(true), x, s.owned);
    AndIfCounts(Silence.And(Asked(true)), true, Spawned(s.owned), x, s.owned);
    AndIfCounts(started, level >= 1 && s.owned, StopRequested, x, s.owned);
    AndIfCounts(stop, level >= 1 && !s.owned && Stopped(s.end) && s.pid, Reaped, x, s.owned);
    AndIfCounts(reap, level >= 2 && Stopped(s.end), Killed, x, s.owned);
  }

  lemma EndCounts(level: nat, s: State, before: Trace, x: Act)
    requires before.Opens(s.owned)
    ensures EndEffects(level, s, before).Opens(s.owned)
    ensures EndEffects(level, s, before).Count(x) ==
      before.Count(x) + Once(level >= 3 && x == ChildReleased) + Once(level >= 3 && s.owned && x == ConfirmAsked) +
      Once(level >= 4 && LateReap(s) && x == Reaped) + Once(level >= 5 && s.owned && x == GuardDropped)
  {
    var released := before.AndIf(level >= 3, ChildReleased);
    var asked := released.AndIf(level >= 3 && s.owned, ConfirmAsked);
    var late := asked.AndIf(level >= 4 && LateReap(s), Reaped);
    AndIfCounts(before, level >= 3, ChildReleased, x, s.owned);
    AndIfCounts(released, level >= 3 && s.owned, ConfirmAsked, x, s.owned);
    AndIfCounts(asked, level >= 4 && LateReap(s), Reaped, x, s.owned);
    AndIfCounts(late, level >= 5 && s.owned, GuardDropped, x, s.owned);
  }

  /** Whether an effect has happened by a level. */
  predicate Happened(level: nat, s: State, x: Act) {
    match x
    case Asked(granted) => granted
    case Spawned(owned) => owned == s.owned
    case SpawnFailed => false
    case StopRequested => level >= 1 && s.owned
    case Reaped => !s.owned && s.pid && ((level >= 1 && Stopped(s.end)) || (level >= 4 && LateReap(s)))
    case Killed => level >= 2 && Stopped(s.end)
    case ChildReleased => level >= 3
    case ConfirmAsked => level >= 3 && s.owned
    case GuardDropped => level >= 5 && s.owned
  }

  /** No effect happens twice. */
  lemma EffectsCounts(s: State, x: Act)
    requires s.trace == Effects(s)
    ensures s.trace.Opens(s.owned)
    ensures s.trace.Count(x) == Once(Happened(Level(s.stage), s, x))
  {
    var level := Level(s.stage);
    StopCounts(level, s, x);
    EndCounts(level, s, StopEffects(level, s), x);
  }

  lemma AbandonedCounts(before: State, x: Act)
    requires Live(before)
    ensures var trace := Abandoning(before).trace;
      trace.Opens(before.owned) &&
      trace.Count(x) == Once(Happened(Level(before.stage), before, x)) +
        Once(before.owned && x == GuardDropped) + Once(before.child && x == ChildReleased)
  {
    EffectsCounts(before, x);
    AndIfCounts(before.trace, before.guard, GuardDropped, x, before.owned);
    AndIfCounts(before.trace.AndIf(before.guard, GuardDropped), before.child, ChildReleased, x, before.owned);
  }

  lemma AbandonedTally(before: State, x: Act)
    requires Live(before)
    ensures var n := Abandoning(before).trace.Count(x);
      n <= 1 && (x == GuardDropped ==> n == Once(before.owned)) && (x == ChildReleased ==> n == 1) &&
      (x == Reaped && before.owned ==> n == 0) && (x.Spawned? ==> n == Once(x.owned == before.owned))
  {
    AbandonedCounts(before, x);
  }

  /** A run abandoned at any await: nothing was spawned unasked, the guard is
      dropped and the child released exactly once each if there ever were any,
      no effect happens twice, and an owned tree is never reaped. */
  lemma AbandonedRun(answers: seq<Answer>, act: Act)
    requires Run(START, answers).Some? && Run(START, answers).value.stage == Abandoned
    ensures var s := Run(START, answers).value;
      var (owned, unmanaged) := (s.trace.Count(Spawned(true)), s.trace.Count(Spawned(false)));
      (s.trace == Silence || s.trace.Opens(s.owned)) && owned + unmanaged <= 1 && s.trace.Count(act) <= 1 &&
      (act == GuardDropped ==> s.trace.Count(act) == owned) &&
      (act == ChildReleased ==> s.trace.Count(act) == owned + unmanaged) &&
      (act == Reaped ==> s.trace.Count(act) <= unmanaged)
  {
    RunKeeps(START, [], answers);
    var s := Run(START, answers).value;
    var before :| (before == START || Live(before)) && s == Abandoning(before);
    if before == START {
      assert s.trace == Silence && forall x :: Silence.Count(x) == 0;
    } else {
      AbandonedCounts(before, act);
      AbandonedTally(before, act);
      AbandonedTally(before, Spawned(true));
      AbandonedTally(before, Spawned(false));
    }
  }

  lemma {:induction false} SaidIn(answers: seq<Answer>, word: Option<Cleanup>)
    ensures word in FlatMap(Said, answers) <==> Confirmation(word) in answers
  {
    if answers != [] {
      SaidIn(answers[1..], word);
      assert answers == [answers[0]] + answers[1..];
    }
  }

  /** The cleanup of a finished run: `Confirmed` exactly on the guard's word, and not
      started exactly when it spawned nothing or its guard says so; and only the guard
      of a command that was spawned says anything. */
  lemma CleanupIsHonest(answers: seq<Answer>)
    requires Run(START, answers).Some? && Run(START, answers).value.stage == Complete
    ensures var s := Run(START, answers).value;
      (s.cleanup == Confirmed <==> Confirmation(Some(Confirmed)) in answers) &&
      (s.cleanup == NothingStarted <==> !HasSpawned(s.trace) || Confirmation(Some(NothingStarted)) in answers) &&
      (FlatMap(Said, answers) != [] ==> s.trace.Has(Spawned(true)))
  {
    hide Effects, Refusal, Run, Step, HasSpawned;
    RunKeeps(START, [], answers);
    AppendEmpty(answers, []);
    SaidIn(answers, Some(Confirmed));
    SaidIn(answers, Some(NothingStarted));
    SpawnedOrNever(Run(START, answers).value);
  }

  lemma SpawnedOrNever(s: State)
    requires Invariant(s) && s.stage == Complete
    ensures if NeverStarted(s) then !HasSpawned(s.trace) else HasSpawned(s.trace) && s.trace.Has(Spawned(s.owned))
  {
    if RanThrough(s) {
      EffectsSpawn(s);
    } else {
      NeverStartedSpawn(s);
    }
  }

  /** A command that ran and whose guard says it never did: the run counts as not started. */
  lemma StartedAsNotStarted()
    ensures var run := Run(START, [Gate(true, false, Owned(true)), Ended(Exited(true)), Elapsed,
                                   Confirmation(Some(NothingStarted)), Pipe(true), Pipe(true)]);
      run.Some? && run.value.stage == Complete && run.value.cleanup == NothingStarted &&
      run.value.trace.Has(Spawned(true))
  {
    var word := Confirmation(Some(NothingStarted));
    RunCons(START, Gate(true, false, Owned(true)), [Ended(Exited(true)), Elapsed, word, Pipe(true), Pipe(true)]);
    var s := Step(START, Gate(true, false, Owned(true))).value;
    RunCons(s, Ended(Exited(true)), [Elapsed, word, Pipe(true), Pipe(true)]);
    s := Step(s, Ended(Exited(true))).value;
    RunCons(s, Elapsed, [word, Pipe(true), Pipe(true)]);
    s := Step(s, Elapsed).value;
    RunCons(s, word, [Pipe(true), Pipe(true)]);
    s := Step(s, word).value;
    RunCons(s, Pipe(true), [Pipe(true)]);
    s := Step(s, Pipe(true)).value;
    RunCons(s, Pipe(true), []);
  }

  // ----- the code as it is written -----

  /** One environment that lets the run finish. */
  datatype Env = Env(granted: bool, cancelled: bool, spawn: Spawn, end: End, confirmation: Option<Cleanup>,
                     outClosed: bool, errClosed: bool)

  /** The answers an environment gives from a point of the run on. */
  function Script(env: Env): seq<Answer> {
    [Gate(env.granted, env.cancelled, env.spawn)] +
    if env.granted && !env.cancelled && !env.spawn.NoChild? then [Ended(env.end)] + FromStop(env) else []
  }

  function FromStop(env: Env): seq<Answer> {
    (if env.spawn.Owned? || (env.spawn.Unmanaged? && Stopped(env.end) && env.spawn.pid) then [Elapsed] else []) +
    FromKill(env)
  }

  function FromKill(env: Env): seq<Answer> {
    (if Stopped(env.end) then [Elapsed] else []) + FromConfirm(env)
  }

  function FromConfirm(env: Env): seq<Answer> {
    (if env.spawn.Owned? then [Confirmation(env.confirmation)] else []) + FromDrain(env)
  }

  function FromDrain(env: Env): seq<Answer> {
    [Pipe(env.outClosed)] + ([Pipe(env.errClosed)] + FromReap(env))
  }

  function FromReap(env: Env): seq<Answer> {
    if !(env.outClosed && env.errClosed) && !Stopped(env.end) && env.spawn.Unmanaged? && env.spawn.pid then [Elapsed]
    else []
  }

  lemma RunCons(s: State, a: Answer, rest: seq<Answer>)
    requires Step(s, a).Some?
    ensures Run(s, [a] + rest) == Run(Step(s, a).value, rest)
  {
    assert ([a] + rest)[1..] == rest;
  }

  /** The machine's state while the code stands where `s.stage` says. */
  ghost predicate Matches(env: Env, s: State) {
    !env.spawn.NoChild? && s.owned == env.spawn.Owned? && s.pid == env.spawn.pid && s.guard == s.owned &&
    EndsWait(env.end) && (s.stage != Waiting ==> s.end == env.end)
  }

  /** Stops the tree once the wait is over. */
  method StopTree(env: Env, log0: Trace, ghost s0: State) returns (log: Trace, ghost s: State)
    requires Matches(env, s0) && s0.stage == Waiting && s0.trace == log0
    ensures Matches(env, s.(stage := Killing)) && s.trace == log
    ensures Run(s0, [Ended(env.end)] + FromStop(env)) == Run(AfterStop(s), FromKill(env))
  {
    log := log0;
    s := s0.(end := env.end);
    RunCons(s0, Ended(env.end), FromStop(env));
    ghost var asked := AfterWait(s0, env.end);
    if env.spawn.Owned? {
      log, s := log.And(StopRequested), asked;
      RunCons(asked, Elapsed, FromKill(env));
    } else if Stopped(env.end) && env.spawn.pid {
      log, s := log.And(Reaped), asked;
      RunCons(asked, Elapsed, FromKill(env));
    } else {
      assert FromStop(env) == FromKill(env);
    }
  }

  /** Kills the child of a stopped run; the child is still held. */
  method KillChild(env: Env, log0: Trace, ghost s0: State) returns (log: Trace, ghost s: State)
    requires Matches(env, s0.(stage := Killing)) && s0.trace == log0
    ensures Matches(env, s.(stage := Killing)) && s.trace == log
    ensures Run(AfterStop(s0), FromKill(env)) == Run(AfterKill(s), FromConfirm(env))
  {
    log, s := log0, s0;
    if Stopped(env.end) {
      log, s := log.And(Killed), AfterStop(s0);
      RunCons(s, Elapsed, FromConfirm(env));
    } else {
      assert FromKill(env) == FromConfirm(env);
    }
  }

  /** Releases the child, asks the guard, and waits for the pipes. */
  method ReleaseChild(env: Env, log0: Trace, ghost s0: State) returns (cleanup: Cleanup, log: Trace, ghost s: State)
    requires Matches(env, s0.(stage := Killing)) && s0.trace == log0
    ensures Matches(env, s) && s.stage == DrainingOut && s.trace == log && s.cleanup == cleanup
    ensures cleanup == if env.spawn.Owned? then OrElse(env.confirmation, Unverified) else Unverified
    ensures Run(AfterKill(s0), FromConfirm(env)) == Run(s, FromDrain(env))
  {
    log := log0.And(ChildReleased);
    cleanup := Unverified;
    s := AfterKill(s0);
    if env.spawn.Owned? {
      log := log.And(ConfirmAsked);
      if env.confirmation.Some? {
        cleanup := env.confirmation.value;
      }
      RunCons(s, Confirmation(env.confirmation), FromDrain(env));
      s := Step(s, Confirmation(env.confirmation)).value;
    } else {
      assert FromConfirm(env) == FromDrain(env);
    }
  }

  method DrainPipes(env: Env, log0: Trace, ghost s0: State) returns (closed: bool, log: Trace, ghost s: State)
    requires Matches(env, s0) && s0.stage == DrainingOut && s0.trace == log0
    ensures s.stage == Complete && s.end == env.end && s.trace == log
    ensures s.cleanup == s0.cleanup && s.pipesClosed == closed
    ensures Run(s0, FromDrain(env)) == Some(s)
  {
    closed := env.outClosed && env.errClosed;
    log := log0;
    RunCons(s0, Pipe(env.outClosed), [Pipe(env.errClosed)] + FromReap(env));
    ghost var s1 := Step(s0, Pipe(env.outClosed)).value;
    RunCons(s1, Pipe(env.errClosed), FromReap(env));
    s := AfterDrain(s1, env.errClosed);
    if !closed && !(Stopped(env.end)) && !env.spawn.Owned? && env.spawn.pid {
      log := log.And(Reaped);
      assert FromReap(env) == [Elapsed] + [];
      RunCons(s, Elapsed, []);
      s := Return(s);
    }
    if env.spawn.Owned? {
      log := log.And(GuardDropped);
    }
  }

  /** How a command ends in an environment: the wait decides only if there was one. */
  function EndOf(env: Env): End {
    if !env.granted then Denied
    else if env.cancelled then Cancelled
    else if env.spawn.NoChild? then NotStarted
    else env.end
  }

  /** Whether the environment lets a command start. */
  predicate LetsStart(env: Env) { env.granted && !env.cancelled && !env.spawn.NoChild? }

  lemma PipesInScript(env: Env)
    requires LetsStart(env)
    ensures Pipe(false) in Script(env) <==> !(env.outClosed && env.errClosed)
  {
    assert forall x :: x in Script(env) <==>
      x == Gate(env.granted, env.cancelled, env.spawn) || x == Ended(env.end) || x in FromStop(env);
    assert forall x :: x in FromStop(env) ==> x == Elapsed || x in FromDrain(env) || x.Confirmation?;
    assert forall x ::
        x in FromDrain(env) <==> x == Pipe(env.outClosed) || x == Pipe(env.errClosed) || x in FromReap(env);
    assert forall x :: x in FromDrain(env) ==> x in FromConfirm(env);
    assert forall x :: x in FromConfirm(env) ==> x in FromKill(env);
    assert forall x :: x in FromKill(env) ==> x in FromStop(env);
  }

  /** The run from the gate to the end: it is the machine's, effect for effect, and told by its environment alone. */
  method Execute(env: Env) returns (end: End, cleanup: Cleanup, pipesClosed: bool, log: Trace)
    requires EndsWait(env.end)
    ensures var s := Run(START, Script(env));
      s.Some? && s.value.stage == Complete &&
      (end, cleanup, pipesClosed, log) == (s.value.end, s.value.cleanup, s.value.pipesClosed, s.value.trace)
    ensures end == EndOf(env) && (HasSpawned(log) <==> LetsStart(env))
    ensures pipesClosed <==> !LetsStart(env) || (env.outClosed && env.errClosed)
    ensures cleanup == if !LetsStart(env) then NothingStarted
                       else if env.spawn.Owned? then OrElse(env.confirmation, Unverified) else Unverified
    ensures LetsStart(env) ==> log == EndedEffects(env.spawn, env.end, !(env.outClosed && env.errClosed))
  {
    log := Silence.And(Asked(env.granted));
    var gate := Gate(env.granted, env.cancelled, env.spawn);
    var goesOn := env.granted && !env.cancelled && !env.spawn.NoChild?;
    RunCons(START, gate, if goesOn then [Ended(env.end)] + FromStop(env) else []);
    assert !HasSpawned(log);
    if !env.granted {
      return Denied, NothingStarted, true, log;
    }
    if env.cancelled {
      return Cancelled, NothingStarted, true, log;
    }
    if env.spawn.NoChild? {
      return NotStarted, NothingStarted, true, log.And(SpawnFailed);
    }
    log := log.And(Spawned(env.spawn.Owned?));
    ghost var s := Step(START, gate).value;
    log, s := StopTree(env, log, s);
    log, s := KillChild(env, log, s);
    cleanup, log, s := ReleaseChild(env, log, s);
    pipesClosed, log, s := DrainPipes(env, log, s);
    end := env.end;
    ScriptRuns(env);
  }

  /** What the machine makes of a started environment. */
  lemma ScriptRuns(env: Env)
    requires LetsStart(env) && Run(START, Script(env)).Some? && Run(START, Script(env)).value.stage == Complete
    ensures var s := Run(START, Script(env)).value;
      HasSpawned(s.trace) && s.end == env.end && (s.pipesClosed <==> env.outClosed && env.errClosed) &&
      s.trace == EndedEffects(env.spawn, env.end, !(env.outClosed && env.errClosed))
  {
    hide Run, FromStop, HasSpawned, Effects;
    CompleteRun(Script(env));
    PipesInScript(env);
    assert Script(env)[0] == Gate(env.granted, env.cancelled, env.spawn) && Script(env)[1] == Ended(env.end);
    RunKeeps(START, [], Script(env));
    SpawnedOrNever(Run(START, Script(env)).value);
    StartedHasSpawned(env.spawn, env.end, !(env.outClosed && env.errClosed));
  }

  lemma StartedHasSpawned(spawn: Spawn, end: End, leaky: bool)
    requires !spawn.NoChild?
    ensures HasSpawned(EndedEffects(spawn, end, leaky))
  {
  }
}

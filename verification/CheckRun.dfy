/** A check with an optional fixer: at most three gated commands, and only the
    check's own last run decides the outcome. */
module CheckRun {
  import opened Text
  import C = CommandRun
  import S = CancelSignal

  datatype Status = Passed | Failed | Denied | Errored

  datatype Outcome = Outcome(status: Status, fixed: bool)

  datatype Command = TheCheck | TheFixer

  /** One command as it ran: its result and its effects. */
  datatype Call = Call(command: Command, end: C.End, trace: C.Trace)

  /** What one run of the check command says of the check. */
  function StatusOf(end: C.End): Status {
    match end
    case Exited(success) => if success then Passed else Failed
    case Denied => Status.Denied
    case _ => Errored
  }

  /** Whether the cancel flag was set by the end of a command. */
  predicate SawCancel(env: C.Env) {
    env.cancelled || C.EndOf(env) == C.Cancelled
  }

  /** The flag is never cleared: a command that begins after it was set finds it set. */
  predicate Sticky(first: C.Env, fix: C.Env, again: C.Env) {
    (SawCancel(first) ==> fix.cancelled) && (SawCancel(fix) ==> again.cancelled)
  }

  /** A command that read the signal's flag in one world and was over in another: it
      ends as cancelled only by that flag, or because its wait on the signal returned. */
  ghost predicate Observes(env: C.Env, read: S.World, over: S.World) {
    env.cancelled == read.flag &&
    (C.EndOf(env) == C.Cancelled && !env.cancelled ==> exists id <- over.waiters :: over.waiters[id] == S.Returned)
  }

  /** Commands that follow one another on one signal, each finding it as time left it. */
  ghost predicate InTurn(w: seq<S.World>, first: C.Env, fix: C.Env, again: C.Env) {
    |w| == 5 && S.Reaches(S.START, w[0]) && (forall i :: 0 <= i < 4 ==> S.Reaches(w[i], w[i + 1])) &&
    Observes(first, w[0], w[1]) && Observes(fix, w[2], w[3]) && again.cancelled == w[4].flag
  }

  ghost predicate OneSignal(first: C.Env, fix: C.Env, again: C.Env) {
    exists w: seq<S.World> :: InTurn(w, first, fix, again)
  }

  lemma OneSignalSticks(first: C.Env, fix: C.Env, again: C.Env)
    requires OneSignal(first, fix, again)
    ensures Sticky(first, fix, again)
  {
    var w: seq<S.World> :| InTurn(w, first, fix, again);
    S.ReachesKeeps(S.START, w[0]);
    for i := 0 to 4
      invariant forall j :: 0 <= j <= i ==> S.Invariant(w[j])
      invariant forall j :: 0 <= j < i ==> (w[j].flag ==> w[j + 1].flag)
    {
      S.ReachesKeeps(w[i], w[i + 1]);
    }
    assert forall world <- [w[1], w[3]] ::
      (exists id <- world.waiters :: world.waiters[id] == S.Returned) ==> world.flag;
  }

  /** Every command asks the gate once, first, and spawns only with its own grant. */
  ghost predicate Gated(call: Call) {
    call.trace.Count(C.Asked(true)) + call.trace.Count(C.Asked(false)) == 1 &&
    (C.HasSpawned(call.trace) ==>
       call.trace.Count(C.Asked(true)) == 1 && call.trace.Opens(call.trace.Has(C.Spawned(true))))
  }

  lemma ExecutedIsGated(env: C.Env, call: Call)
    requires C.Run(C.START, C.Script(env)).Some?
    requires var s := C.Run(C.START, C.Script(env)).value; s.stage == C.Complete && call.trace == s.trace
    ensures Gated(call)
  {
    C.RunKeeps(C.START, [], C.Script(env));
    var s := C.Run(C.START, C.Script(env)).value;
    if C.RanThrough(s) {
      C.EffectsCounts(s, C.Asked(true));
      C.EffectsCounts(s, C.Asked(false));
      C.EffectsSpawn(s);
    } else {
      C.NeverStartedSpawn(s);
      assert C.Trace.Silence.Count(C.Asked(true)) == C.Trace.Silence.Count(C.Asked(false)) == 0;
    }
  }

  method RunCommand(command: Command, env: C.Env) returns (status: Status, call: Call)
    requires C.EndsWait(env.end)
    ensures call.command == command && call.end == C.EndOf(env) && status == StatusOf(call.end)
    ensures Gated(call) && (C.HasSpawned(call.trace) ==> env.granted && !env.cancelled)
  {
    var end, cleanup, closed, log := C.Execute(env);
    call := Call(command, end, log);
    ExecutedIsGated(env, call);
    status := StatusOf(end);
  }

  /** Runs the check; if it reports findings and there is a fixer, runs that and the check once more. */
  method Run(hasFixer: bool, first: C.Env, fix: C.Env, again: C.Env) returns (outcome: Outcome, calls: seq<Call>)
    requires C.EndsWait(first.end) && C.EndsWait(fix.end) && C.EndsWait(again.end)
    // at most three commands, each through the gate
    ensures 1 <= |calls| <= 3 && forall call <- calls :: Gated(call)
    // the fixer runs exactly when the check ran and failed and there is one; then the check runs again
    ensures calls[0].command == TheCheck && calls[0].end == C.EndOf(first)
    ensures outcome.fixed <==> hasFixer && C.EndOf(first) == C.Exited(false)
    ensures outcome.fixed <==> exists call <- calls :: call.command == TheFixer
    ensures outcome.fixed ==> |calls| == 3 && calls[2].command == TheCheck && calls[2].end == C.EndOf(again)
    ensures !outcome.fixed ==> |calls| == 1
    // the last run of the check, and nothing else, decides the status
    ensures outcome.status == StatusOf(calls[|calls| - 1].end)
    ensures outcome.status == Passed <==> calls[|calls| - 1].end == C.Exited(true)
    ensures outcome.status == Failed <==> calls[|calls| - 1].end == C.Exited(false)
    ensures outcome.status == Status.Denied <==> calls[|calls| - 1].end == C.Denied
    ensures outcome.status == Errored <==>
      calls[|calls| - 1].end in [C.NotStarted, C.TimedOut, C.Cancelled, C.WaitFailed]
    // a command that begins after a cancel spawns nothing
    ensures OneSignal(first, fix, again) ==>
      forall j, k :: 0 <= j < k < |calls| && SawCancel([first, fix, again][j]) ==> !C.HasSpawned(calls[k].trace)
  {
    if OneSignal(first, fix, again) { OneSignalSticks(first, fix, again); }
    var status, call := RunCommand(TheCheck, first);
    calls := [call];
    if status == Failed && hasFixer {
      var ignored, fixing := RunCommand(TheFixer, fix);
      var retried, recheck := RunCommand(TheCheck, again);
      calls := [call, fixing, recheck];
      assert calls[1].command == TheFixer;
      return Outcome(retried, true), calls;
    }
    return Outcome(status, false), calls;
  }
}

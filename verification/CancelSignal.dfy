/** The cancel signal: any number of waiters, each registering before it checks
    the flag, and any number of cancellers, each storing the flag before it
    notifies.  `Notified` is modelled by its documented rule: a waiter that
    registered at notification count `at` is woken by every later notification. */
module CancelSignal {
  import opened Text

  /** Where a call of `cancelled` stands. */
  datatype Waiter = Looping | Registered(at: nat) | Awaiting(at: nat) | Returned

  /** Where a call of `cancel` stands. */
  datatype Canceller = Called | Stored | Finished

  datatype World = World(flag: bool, notified: nat, waiters: map<nat, Waiter>, cancellers: map<nat, Canceller>)

  const START := World(false, 0, map[], map[])

  /** One atomic step, by whichever call the scheduler picks. */
  datatype Action = Wait(id: nat) | Cancel(id: nat) | StepWaiter(id: nat) | StepCanceller(id: nat)

  /** `None` when the step is not possible: the call is blocked, over, or unknown. */
  function Step(w: World, a: Action): Option<World> {
    match a
    case Wait(id) => if id in w.waiters then None else Some(w.(waiters := w.waiters[id := Looping]))
    case Cancel(id) => if id in w.cancellers then None else Some(w.(cancellers := w.cancellers[id := Called]))
    case StepWaiter(id) =>
      if id !in w.waiters then None
      else (match w.waiters[id]
        case Looping => Some(w.(waiters := w.waiters[id := Registered(w.notified)]))
        case Registered(at) => Some(w.(waiters := w.waiters[id := if w.flag then Returned else Awaiting(at)]))
        case Awaiting(at) => if at < w.notified then Some(w.(waiters := w.waiters[id := Looping])) else None
        case Returned => None)
    case StepCanceller(id) =>
      if id !in w.cancellers then None
      else (match w.cancellers[id]
        case Called => Some(w.(flag := true, cancellers := w.cancellers[id := Stored]))
        case Stored => Some(w.(notified := w.notified + 1, cancellers := w.cancellers[id := Finished]))
        case Finished => None)
  }

  function Run(w: World, actions: seq<Action>): Option<World>
    decreases |actions|
  {
    if actions == [] then Some(w)
    else match Step(w, actions[0])
      case None => None
      case Some(next) => Run(next, actions[1..])
  }

  /** Some cancel call has returned. */
  ghost predicate Cancelled(w: World) {
    exists id :: id in w.cancellers && w.cancellers[id] == Finished
  }

  /** A cancel call has at least stored the flag. */
  ghost predicate Requested(w: World) {
    exists id :: id in w.cancellers && w.cancellers[id] != Called
  }

  ghost predicate Invariant(w: World) {
    (w.flag <==> Requested(w)) &&
    (w.notified > 0 ==> w.flag) &&
    forall id :: id in w.waiters ==>
      match w.waiters[id]
      case Looping => true
      case Registered(at) => at <= w.notified
      // whoever waits without the notification still to come waits for one already made
      case Awaiting(at) => at <= w.notified && (Cancelled(w) ==> at < w.notified)
      case Returned => w.flag
  }

  lemma StepKeepsInvariant(w: World, a: Action)
    requires Invariant(w) && Step(w, a).Some?
    ensures Invariant(Step(w, a).value)
    ensures Cancelled(w) ==> Cancelled(Step(w, a).value)
  {
    var next := Step(w, a).value;
    match a
    case Wait(_) =>
    case StepWaiter(_) =>
    case Cancel(id) =>
      assert next.cancellers[id] == Called;
      forall c | c in w.cancellers ensures c in next.cancellers && next.cancellers[c] == w.cancellers[c] { }
    case StepCanceller(id) =>
      assert next.cancellers[id] != Called;
      forall c | c in w.cancellers && c != id ensures c in next.cancellers && next.cancellers[c] == w.cancellers[c] { }
      assert w.cancellers[id] == Stored ==> Requested(w);
  }

  lemma {:induction false} RunKeepsInvariant(w: World, actions: seq<Action>)
    requires Invariant(w) && Run(w, actions).Some?
    ensures Invariant(Run(w, actions).value)
    ensures Cancelled(w) ==> Cancelled(Run(w, actions).value)
    decreases |actions|
  {
    if actions != [] {
      StepKeepsInvariant(w, actions[0]);
      RunKeepsInvariant(Step(w, actions[0]).value, actions[1..]);
    }
  }

  /** Once any cancel call has returned, every waiter that has not returned can take its next step. */
  lemma NoLostWakeup(actions: seq<Action>, id: nat)
    requires Run(START, actions).Some?
    ensures var w := Run(START, actions).value;
      Cancelled(w) && id in w.waiters && w.waiters[id] != Returned ==> Step(w, StepWaiter(id)).Some?
  {
    RunKeepsInvariant(START, actions);
  }

  /** A waiter returns only after some cancel call stored the flag. */
  lemma ReturnsOnlyWhenCancelled(actions: seq<Action>, id: nat)
    requires Run(START, actions).Some?
    ensures var w := Run(START, actions).value;
      id in w.waiters && w.waiters[id] == Returned ==> w.flag && Requested(w)
  {
    RunKeepsInvariant(START, actions);
  }

  /** `later` is a world the signal may be in some steps after `w`. */
  ghost predicate Reaches(w: World, later: World) {
    exists actions :: Run(w, actions) == Some(later)
  }

  lemma {:induction false} FlagStays(w: World, actions: seq<Action>)
    requires Run(w, actions).Some?
    ensures w.flag ==> Run(w, actions).value.flag
    decreases |actions|
  {
    if actions != [] { FlagStays(Step(w, actions[0]).value, actions[1..]); }
  }

  /** Over time the signal keeps its invariant and never clears its flag. */
  lemma ReachesKeeps(w: World, later: World)
    requires Invariant(w) && Reaches(w, later)
    ensures Invariant(later) && (w.flag ==> later.flag)
  {
    var actions :| Run(w, actions) == Some(later);
    RunKeepsInvariant(w, actions);
    FlagStays(w, actions);
  }

  // ----- how soon a waiter returns -----

  /** Steps a waiter still has to take once the signal is cancelled. */
  function StepsLeft(w: World, id: nat): nat {
    if id !in w.waiters then 0
    else match w.waiters[id] case Awaiting(_) => 3 case Looping => 2 case Registered(_) => 1 case Returned => 0
  }

  function StepsTaken(actions: seq<Action>, id: nat): nat {
    if actions == [] then 0
    else (if actions[0] == StepWaiter(id) then 1 else 0) + StepsTaken(actions[1..], id)
  }

  lemma {:induction false} WakesInTurn(w: World, more: seq<Action>, id: nat)
    requires Invariant(w) && Cancelled(w) && id in w.waiters && Run(w, more).Some?
    ensures StepsTaken(more, id) + StepsLeft(Run(w, more).value, id) == StepsLeft(w, id)
    ensures id in Run(w, more).value.waiters
    decreases |more|
  {
    if more != [] {
      StepKeepsInvariant(w, more[0]);
      WakesInTurn(Step(w, more[0]).value, more[1..], id);
    }
  }

  /** However the rest is scheduled, no waiter needs more than three steps of its
      own after a cancel call has returned: it then has returned, and not before. */
  lemma WakesInThreeSteps(actions: seq<Action>, more: seq<Action>, id: nat)
    requires Run(START, actions).Some? && Cancelled(Run(START, actions).value)
    requires id in Run(START, actions).value.waiters
    requires Run(Run(START, actions).value, more).Some?
    ensures var (before, after) := (Run(START, actions).value, Run(Run(START, actions).value, more).value);
      StepsTaken(more, id) <= 3 && id in after.waiters &&
      (after.waiters[id] == Returned <==> StepsTaken(more, id) == StepsLeft(before, id))
  {
    RunKeepsInvariant(START, actions);
    WakesInTurn(Run(START, actions).value, more, id);
  }

  // ----- how soon a cancel call returns -----

  /** Steps a cancel call still has to take. */
  function CancelLeft(w: World, id: nat): nat {
    if id !in w.cancellers then 0
    else match w.cancellers[id] case Called => 2 case Stored => 1 case Finished => 0
  }

  function CancelTaken(actions: seq<Action>, id: nat): nat {
    if actions == [] then 0
    else (if actions[0] == StepCanceller(id) then 1 else 0) + CancelTaken(actions[1..], id)
  }

  lemma {:induction false} CancelsInTurn(w: World, more: seq<Action>, id: nat)
    requires id in w.cancellers && Run(w, more).Some?
    ensures id in Run(w, more).value.cancellers
    ensures CancelTaken(more, id) + CancelLeft(Run(w, more).value, id) == CancelLeft(w, id)
    decreases |more|
  {
    if more != [] { CancelsInTurn(Step(w, more[0]).value, more[1..], id); }
  }

  /** A cancel call is never blocked and returns at its second step, however the rest is
      scheduled; from its first step on the flag is set. */
  lemma CancelReturns(w: World, more: seq<Action>, id: nat)
    requires Step(w, Cancel(id)).Some? && Run(Step(w, Cancel(id)).value, more).Some?
    ensures var after := Run(Step(w, Cancel(id)).value, more).value;
      id in after.cancellers && CancelTaken(more, id) <= 2 &&
      (after.cancellers[id] != Finished <==> Step(after, StepCanceller(id)).Some?) &&
      (after.cancellers[id] == Finished <==> CancelTaken(more, id) == 2)
    ensures Invariant(w) && CancelTaken(more, id) > 0 ==> Run(Step(w, Cancel(id)).value, more).value.flag
  {
    var called := Step(w, Cancel(id)).value;
    CancelsInTurn(called, more, id);
    if Invariant(w) {
      StepKeepsInvariant(w, Cancel(id));
      RunKeepsInvariant(called, more);
    }
  }
}

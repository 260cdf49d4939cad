/** The event-driven wait: one feeder, resizers serialized by the terminal lock, and any
number of waiters share a grid and a generation counter.  A step is one action that no
other task can interrupt; a run is any interleaving of steps.

The feeder changes the grid under the lock and bumps after releasing it.  A resizer
changes the grid and bumps while it holds the lock, and only if the sender still exists:
its handle is weak, so that the feeder's exit ends the channel. */
module WaitProtocol {
  import opened Options

  /** `Fed`: the grid has changed, the bump is still to come. */
  datatype Feeder = Idle | Fed | Exited

  /** `Changed`: grid resized, bump not attempted.  `Upgraded`: holds the sender for its bump. */
  datatype Resizer = NoResize | Locked | Changed | Upgraded | Finished

  datatype Outcome = Matched | TimedOut | Ended

  /** `Top`: about to mark the generation seen.  `Marked`: about to check the grid. */
  datatype Phase = Top | Marked | Parked | Done(outcome: Outcome)

  /** `checked` numbers the grid version of the last check, `grid` is what it saw, and
      `silentBefore` counts the silent changes made by then. */
  datatype Waiter<G> = Waiter(phase: Phase, seen: nat, checked: nat, grid: G, silentBefore: nat)

  /** `version` counts grid changes; `silent` those that no bump will ever announce. */
  datatype State<G> = State(
    grid: G, version: nat, generation: nat, feeder: Feeder, resizer: Resizer,
    waiters: map<nat, Waiter<G>>, silent: nat)

  datatype Step<G> =
    | Feed(to: G) | Bump | FeederExit
    | ResizeLock | ResizeFail | ResizeGrid(to: G) | ResizeUpgrade | ResizeBump | ResizeUnlock
    | Arrive(w: nat) | Mark(w: nat) | Check(w: nat) | Wake(w: nat) | WakeEnded(w: nat) | Timeout(w: nat)

  /** Whether waiter `w` accepts a grid. */
  type Condition<!G> = (nat, G) -> bool

  predicate LockFree<G>(s: State<G>) { s.resizer == NoResize }

  /** The channel is open while the feeder or an upgraded resizer holds the sender. */
  predicate SenderAlive<G>(s: State<G>) { s.feeder != Exited || s.resizer == Upgraded }

  predicate In<G>(s: State<G>, w: nat, phase: Phase) { w in s.waiters && s.waiters[w].phase == phase }

  function SetWaiter<G>(s: State<G>, w: nat, x: Waiter<G>): State<G> {
    s.(waiters := s.waiters[w := x])
  }

  function Apply<G>(cond: Condition<G>, s: State<G>, step: Step<G>): Option<State<G>> {
    match step
    case Feed(to) =>
      if s.feeder == Idle && LockFree(s) then Some(s.(grid := to, version := s.version + 1, feeder := Fed)) else None
    case Bump =>
      if s.feeder == Fed then Some(s.(generation := s.generation + 1, feeder := Idle)) else None
    case FeederExit =>
      if s.feeder == Idle then Some(s.(feeder := Exited)) else None
    case ResizeLock =>
      if LockFree(s) then Some(s.(resizer := Locked)) else None
    case ResizeFail =>
      if s.resizer == Locked then Some(s.(resizer := NoResize)) else None
    case ResizeGrid(to) =>
      if s.resizer == Locked then Some(s.(grid := to, version := s.version + 1, resizer := Changed)) else None
    case ResizeUpgrade =>
      if s.resizer != Changed then None
      else if s.feeder == Exited then Some(s.(resizer := Finished, silent := s.silent + 1))
      else Some(s.(resizer := Upgraded))
    case ResizeBump =>
      if s.resizer == Upgraded then Some(s.(generation := s.generation + 1, resizer := Finished)) else None
    case ResizeUnlock =>
      if s.resizer == Finished then Some(s.(resizer := NoResize)) else None
    case Arrive(w) =>
      if w in s.waiters then None else Some(SetWaiter(s, w, Waiter(Top, 0, 0, s.grid, 0)))
    case Mark(w) =>
      if In(s, w, Top) then Some(SetWaiter(s, w, s.waiters[w].(phase := Marked, seen := s.generation))) else None
    case Check(w) =>
      if In(s, w, Marked) && LockFree(s) then
        Some(SetWaiter(s, w, Waiter(if cond(w, s.grid) then Done(Matched) else Parked,
                                    s.waiters[w].seen, s.version, s.grid, s.silent)))
      else None
    case Wake(w) =>
      if In(s, w, Parked) && s.waiters[w].seen != s.generation
      then Some(SetWaiter(s, w, s.waiters[w].(phase := Top))) else None
    case WakeEnded(w) =>
      if In(s, w, Parked) && s.waiters[w].seen == s.generation && !SenderAlive(s)
      then Some(SetWaiter(s, w, s.waiters[w].(phase := Done(Ended)))) else None
    case Timeout(w) =>
      if In(s, w, Parked) then Some(SetWaiter(s, w, s.waiters[w].(phase := Done(TimedOut)))) else None
  }

  function Init<G>(grid: G): State<G> {
    State(grid, 0, 0, Idle, NoResize, map[], 0)
  }

  /** The state after a run, if every step was possible. */
  function Run<G>(cond: Condition<G>, s: State<G>, steps: seq<Step<G>>): Option<State<G>> {
    if steps == [] then Some(s)
    else
      var t := Run(cond, s, steps[..|steps| - 1]);
      if t.None? then None else Apply(cond, t.value, steps[|steps| - 1])
  }

  // ---------- The invariant ----------

  /** Grid changes whose bump is still to come. */
  function Unannounced<G>(s: State<G>): nat {
    (if s.feeder == Fed then 1 else 0) + ResizeInFlight(s)
  }

  function ResizeInFlight<G>(s: State<G>): nat {
    if s.resizer == Changed || s.resizer == Upgraded then 1 else 0
  }

  /** What holds of a waiter that has checked the grid and not looked again. */
  ghost predicate Checked<G>(cond: Condition<G>, s: State<G>, w: nat, x: Waiter<G>) {
    && x.checked <= s.version && x.silentBefore <= s.silent
    && (x.checked == s.version ==> x.grid == s.grid)
    && (x.phase == Parked ==> !cond(w, x.grid))
    && (x.phase == Done(Matched) ==> cond(w, x.grid))
    // every change since the check is announced later, or silent
    && (x.seen == s.generation ==>
          s.version - x.checked <= Unannounced(s) + (s.silent - x.silentBefore))
    // a silent change made since the check is a change made since the check
    && s.version - x.checked >= ResizeInFlight(s) + (s.silent - x.silentBefore)
  }

  ghost predicate Inv<G>(cond: Condition<G>, s: State<G>) {
    && (s.silent > 0 ==> s.feeder == Exited)
    && (s.resizer == Upgraded && s.feeder == Exited ==> s.silent == 0)
    && forall w | w in s.waiters :: WaiterInv(cond, s, w)
  }

  ghost predicate WaiterInv<G>(cond: Condition<G>, s: State<G>, w: nat)
    requires w in s.waiters
  {
    && s.waiters[w].seen <= s.generation
    && (s.waiters[w].phase.Parked? || s.waiters[w].phase.Done? ==> Checked(cond, s, w, s.waiters[w]))
  }

  predicate IsWaiterStep<G>(step: Step<G>) {
    step.Arrive? || step.Mark? || step.Check? || step.Wake? || step.WakeEnded? || step.Timeout?
  }

  lemma ProducerKeepsWaiter<G>(cond: Condition<G>, s: State<G>, step: Step<G>, w: nat)
    requires Inv(cond, s) && Apply(cond, s, step).Some? && !IsWaiterStep(step) && w in s.waiters
    ensures w in Apply(cond, s, step).value.waiters && WaiterInv(cond, Apply(cond, s, step).value, w)
  {
    assert WaiterInv(cond, s, w);
  }

  lemma WaiterStepKeepsWaiter<G>(cond: Condition<G>, s: State<G>, step: Step<G>, w: nat)
    requires Inv(cond, s) && Apply(cond, s, step).Some? && IsWaiterStep(step)
    requires w in Apply(cond, s, step).value.waiters
    ensures WaiterInv(cond, Apply(cond, s, step).value, w)
  {
    if w in s.waiters { assert WaiterInv(cond, s, w); }
  }

  lemma StepKeepsInv<G>(cond: Condition<G>, s: State<G>, step: Step<G>)
    requires Inv(cond, s) && Apply(cond, s, step).Some?
    ensures Inv(cond, Apply(cond, s, step).value)
  {
    var t := Apply(cond, s, step).value;
    forall w | w in t.waiters ensures WaiterInv(cond, t, w) {
      if IsWaiterStep(step) {
        WaiterStepKeepsWaiter(cond, s, step, w);
      } else {
        ProducerKeepsWaiter(cond, s, step, w);
      }
    }
  }

  lemma {:induction false} RunKeepsInv<G>(cond: Condition<G>, grid: G, steps: seq<Step<G>>)
    requires Run(cond, Init(grid), steps).Some?
    ensures Inv(cond, Run(cond, Init(grid), steps).value)
  {
    if steps != [] {
      var front := steps[..|steps| - 1];
      RunKeepsInv(cond, grid, front);
      StepKeepsInv(cond, Run(cond, Init(grid), front).value, steps[|steps| - 1]);
    }
  }

  // ---------- Main results ----------

  ghost predicate Reachable<G(!new)>(cond: Condition<G>, s: State<G>) {
    exists grid: G, steps :: Run(cond, Init(grid), steps) == Some(s)
  }

  lemma ReachableInv<G(!new)>(cond: Condition<G>, s: State<G>)
    requires Reachable(cond, s)
    ensures Inv(cond, s)
  {
    var grid: G, steps :| Run(cond, Init(grid), steps) == Some(s);
    RunKeepsInv(cond, grid, steps);
  }

  predicate Enabled<G>(cond: Condition<G>, s: State<G>, step: Step<G>) {
    Apply(cond, s, step).Some?
  }

  /** A parked waiter that has seen the current generation, with no bump outstanding and
      the channel open, has checked the current grid, which it rejected. */
  lemma ParkedHasCheckedTheGrid<G(!new)>(cond: Condition<G>, s: State<G>, w: nat)
    requires Reachable(cond, s) && In(s, w, Parked)
    requires s.waiters[w].seen == s.generation && Unannounced(s) == 0 && SenderAlive(s)
    ensures s.waiters[w].checked == s.version && s.waiters[w].grid == s.grid
    ensures !cond(w, s.grid)
  {
    ReachableInv(cond, s);
    assert WaiterInv(cond, s, w);
  }

  /** No wakeup is lost: a parked waiter that would accept the current grid can wake, or
      a producer still owes it a bump. */
  lemma NoLostWakeup<G(!new)>(cond: Condition<G>, s: State<G>, w: nat)
    requires Reachable(cond, s) && In(s, w, Parked) && cond(w, s.grid)
    ensures Enabled(cond, s, Wake(w)) || Enabled(cond, s, WakeEnded(w)) || Unannounced(s) > 0
  {
    if s.waiters[w].seen == s.generation && Unannounced(s) == 0 && SenderAlive(s) {
      ParkedHasCheckedTheGrid(cond, s, w);
    }
  }

  /** The steps that let the resizer finish what it started without touching the grid. */
  function FinishResize<G>(s: State<G>): seq<Step<G>> {
    match s.resizer
    case NoResize => []
    case Locked => [ResizeFail]
    case Changed => [ResizeUpgrade] + (if s.feeder == Exited then [] else [ResizeBump]) + [ResizeUnlock]
    case Upgraded => [ResizeBump, ResizeUnlock]
    case Finished => [ResizeUnlock]
  }

  lemma RunMore<G>(cond: Condition<G>, s: State<G>, steps: seq<Step<G>>, step: Step<G>)
    ensures Run(cond, s, steps + [step]) ==
            if Run(cond, s, steps).None? then None else Apply(cond, Run(cond, s, steps).value, step)
  {
    assert (steps + [step])[..|steps|] == steps;
  }

  lemma {:induction false} RunConcat<G>(cond: Condition<G>, s: State<G>, a: seq<Step<G>>, b: seq<Step<G>>)
    requires Run(cond, s, a).Some?
    ensures Run(cond, s, a + b) == Run(cond, Run(cond, s, a).value, b)
    decreases |b|
  {
    if b == [] {
      assert a + b == a;
    } else {
      var front := b[..|b| - 1];
      RunConcat(cond, s, a, front);
      assert (a + b)[..|a + b| - 1] == a + front;
    }
  }

  lemma {:induction false} FinishResizeRuns<G>(cond: Condition<G>, s: State<G>)
    ensures var t := Run(cond, s, FinishResize(s));
            t.Some? && LockFree(t.value) && t.value.grid == s.grid && t.value.waiters == s.waiters &&
            t.value.feeder == s.feeder && t.value.generation >= s.generation
    ensures ResizeInFlight(s) > 0 && s.feeder != Exited ==> Run(cond, s, FinishResize(s)).value.generation > s.generation
    ensures s.resizer == Upgraded ==> Run(cond, s, FinishResize(s)).value.generation > s.generation
  {
    var none: seq<Step<G>> := [];
    match s.resizer {
      case NoResize =>
      case Locked => RunMore(cond, s, none, ResizeFail);
      case Finished => RunMore(cond, s, none, ResizeUnlock);
      case Upgraded =>
        RunMore(cond, s, none, ResizeBump);
        RunMore(cond, s, none + [ResizeBump], ResizeUnlock);
        assert FinishResize(s) == none + [ResizeBump] + [ResizeUnlock];
      case Changed =>
        RunMore(cond, s, none, ResizeUpgrade);
        if s.feeder == Exited {
          RunMore(cond, s, none + [ResizeUpgrade], ResizeUnlock);
          assert FinishResize(s) == none + [ResizeUpgrade] + [ResizeUnlock];
        } else {
          RunMore(cond, s, none + [ResizeUpgrade], ResizeBump);
          RunMore(cond, s, none + [ResizeUpgrade] + [ResizeBump], ResizeUnlock);
          assert FinishResize(s) == none + [ResizeUpgrade] + [ResizeBump] + [ResizeUnlock];
        }
    }
  }

  /** The steps that let the feeder bump, if it owes a bump. */
  function FinishFeed<G>(s: State<G>): seq<Step<G>> {
    if s.feeder == Fed then [Bump] else []
  }

  /** How a parked waiter leaves once nobody owes it a bump. */
  function Leave<G>(s: State<G>, w: nat): seq<Step<G>>
    requires w in s.waiters
  {
    if s.waiters[w].seen != s.generation then [Wake(w), Mark(w), Check(w)] else [WakeEnded(w)]
  }

  lemma {:induction false} LeaveRuns<G>(cond: Condition<G>, s: State<G>, w: nat)
    requires In(s, w, Parked) && LockFree(s) && cond(w, s.grid)
    requires s.waiters[w].seen != s.generation || !SenderAlive(s)
    ensures var t := Run(cond, s, Leave(s, w));
            t.Some? && t.value.grid == s.grid &&
            (In(t.value, w, Done(Matched)) || (In(t.value, w, Done(Ended)) && !SenderAlive(t.value)))
  {
    if s.waiters[w].seen != s.generation {
      var s1 := Apply(cond, s, Wake(w)).value;
      var s2 := Apply(cond, s1, Mark(w)).value;
      RunThree(cond, s, Wake(w), s1, Mark(w), s2, Check(w));
    } else {
      var none: seq<Step<G>> := [];
      RunMore(cond, s, none, WakeEnded(w));
    }
  }

  lemma RunThree<G>(cond: Condition<G>, s: State<G>, a: Step<G>, s1: State<G>, b: Step<G>, s2: State<G>, c: Step<G>)
    requires Apply(cond, s, a) == Some(s1) && Apply(cond, s1, b) == Some(s2)
    ensures Run(cond, s, [a, b, c]) == Apply(cond, s2, c)
  {
    var none: seq<Step<G>> := [];
    RunMore(cond, s, none, a);
    RunMore(cond, s, none + [a], b);
    RunMore(cond, s, none + [a] + [b], c);
    assert [a, b, c] == none + [a] + [b] + [c];
  }

  /** From every reachable state in which a parked waiter would accept the grid, letting
      the producers finish what they started, without any further grid change, gets the
      waiter out: matched, or ended because the session is over. */
  lemma {:induction false} AcceptedGridReleasesTheWaiter<G(!new)>(cond: Condition<G>, s: State<G>, w: nat)
    requires Reachable(cond, s) && In(s, w, Parked) && cond(w, s.grid)
    ensures exists steps :: |steps| <= 7 && Releases(cond, s, w, steps)
  {
    var a := BumpsArrive(cond, s, w);
    var c := LeavesBehind(cond, s, a, w);
    assert |a + c| <= 7;
  }

  /** With the producers' work done, the waiter can leave. */
  lemma {:induction false} BumpsArrive<G(!new)>(cond: Condition<G>, s: State<G>, w: nat) returns (steps: seq<Step<G>>)
    requires Reachable(cond, s) && In(s, w, Parked) && cond(w, s.grid)
    ensures |steps| <= 4 && Run(cond, s, steps).Some?
    ensures var t := Run(cond, s, steps).value;
            && t.grid == s.grid && In(t, w, Parked) && LockFree(t)
            && (t.waiters[w].seen != t.generation || !SenderAlive(t))
  {
    NoLostWakeup(cond, s, w);
    ReachableInv(cond, s);
    var a := FinishResize(s);
    FinishResizeRuns(cond, s);
    var s1 := Run(cond, s, a).value;
    var b := FinishFeed(s1);
    RunMore(cond, s1, [], Bump);
    assert [] + [Bump] == FinishFeed(s1) || FinishFeed(s1) == [];
    RunConcat(cond, s, a, b);
    steps := a + b;
  }

  /** `steps` get the waiter out without a grid change: matched, or ended because the
      session is over. */
  ghost predicate Releases<G>(cond: Condition<G>, s: State<G>, w: nat, steps: seq<Step<G>>) {
    var t := Run(cond, s, steps);
    t.Some? && t.value.grid == s.grid &&
    (In(t.value, w, Done(Matched)) || (In(t.value, w, Done(Ended)) && !SenderAlive(t.value)))
  }

  lemma {:induction false} LeavesBehind<G>(cond: Condition<G>, s: State<G>, steps: seq<Step<G>>, w: nat) returns (more: seq<Step<G>>)
    requires var t := Run(cond, s, steps);
             t.Some? && t.value.grid == s.grid && In(t.value, w, Parked) && LockFree(t.value) && cond(w, t.value.grid) &&
             (t.value.waiters[w].seen != t.value.generation || !SenderAlive(t.value))
    ensures |more| <= 3 && Releases(cond, s, w, steps + more)
  {
    var t := Run(cond, s, steps).value;
    more := Leave(t, w);
    LeaveRuns(cond, t, w);
    RunConcat(cond, s, steps, more);
  }

  /** Once the sender is gone it stays gone, and the generation no longer moves. */
  lemma {:induction false} SenderStaysGone<G>(cond: Condition<G>, s: State<G>, steps: seq<Step<G>>)
    requires !SenderAlive(s) && Run(cond, s, steps).Some?
    ensures var t := Run(cond, s, steps).value; !SenderAlive(t) && t.generation == s.generation
  {
    if steps != [] {
      SenderStaysGone(cond, s, steps[..|steps| - 1]);
    }
  }

  // ---------- Every run, not some run ----------

  /** A step that waiter `w` takes itself. */
  predicate OwnStep<G>(step: Step<G>, w: nat) {
    match step
    case Mark(v) => v == w
    case Check(v) => v == w
    case Wake(v) => v == w
    case WakeEnded(v) => v == w
    case Timeout(v) => v == w
    case _ => false
  }

  function OwnSteps<G>(steps: seq<Step<G>>, w: nat): nat {
    if steps == [] then 0
    else OwnSteps(steps[..|steps| - 1], w) + if OwnStep(steps[|steps| - 1], w) then 1 else 0
  }

  /** How many steps a waiter has left once the sender is gone. */
  function StepsLeft<G>(s: State<G>, w: nat): nat
    requires w in s.waiters
  {
    var x := s.waiters[w];
    match x.phase
    case Done(_) => 0
    case Parked => if x.seen == s.generation then 1 else 4
    case Marked => if x.seen == s.generation then 2 else 5
    case Top => 3
  }

  lemma StepCountsDown<G>(cond: Condition<G>, s: State<G>, step: Step<G>, w: nat)
    requires !SenderAlive(s) && w in s.waiters && Apply(cond, s, step).Some?
    ensures var t := Apply(cond, s, step).value;
            && w in t.waiters && !SenderAlive(t)
            && StepsLeft(t, w) + (if OwnStep(step, w) then 1 else 0) <= StepsLeft(s, w)
  {
  }

  /** Once the sender is gone, in every run whatever the others do, a waiter takes at most
      five more steps. */
  lemma {:induction false} GoneSenderBoundsEveryRun<G>(cond: Condition<G>, s: State<G>, steps: seq<Step<G>>, w: nat)
    requires !SenderAlive(s) && w in s.waiters && Run(cond, s, steps).Some?
    ensures var t := Run(cond, s, steps).value;
            && w in t.waiters && !SenderAlive(t)
            && OwnSteps(steps, w) + StepsLeft(t, w) <= StepsLeft(s, w) <= 5
  {
    if steps != [] {
      var front := steps[..|steps| - 1];
      GoneSenderBoundsEveryRun(cond, s, front, w);
      StepCountsDown(cond, Run(cond, s, front).value, steps[|steps| - 1], w);
    }
  }

  /** The step other than giving up that a waiter takes next. */
  function NextStep<G>(s: State<G>, w: nat): Step<G>
    requires w in s.waiters
  {
    var x := s.waiters[w];
    if x.phase.Top? then Mark(w)
    else if x.phase.Marked? then Check(w)
    else if x.seen != s.generation then Wake(w)
    else WakeEnded(w)
  }

  /** And as long as it has not left, it can take one: at once, or as soon as the lock is
      free if it is about to check. */
  lemma GoneSenderBlocksNobody<G>(cond: Condition<G>, s: State<G>, w: nat)
    requires !SenderAlive(s) && w in s.waiters && !s.waiters[w].phase.Done?
    ensures OwnStep(NextStep(s, w), w)
    ensures Enabled(cond, s, NextStep(s, w)) <==> !In(s, w, Marked) || LockFree(s)
  {
  }

  /** A step that changes the grid. */
  predicate ChangesGrid<G>(step: Step<G>) { step.Feed? || step.ResizeGrid? }

  predicate LeavesGrid<G>(steps: seq<Step<G>>) {
    steps == [] || (!ChangesGrid(steps[|steps| - 1]) && LeavesGrid(steps[..|steps| - 1]))
  }

  /** How many steps a waiter has left while the grid stays one that it accepts. */
  function StepsToMatch(phase: Phase): nat {
    match phase
    case Parked => 3
    case Top => 2
    case Marked => 1
    case Done(_) => 0
  }

  /** While the grid stays one that the waiter accepts, in every run it takes at most three
      more steps, and it leaves matched unless it gives up or the session is over. */
  lemma {:induction false} AcceptedGridBoundsEveryRun<G>(cond: Condition<G>, s: State<G>, steps: seq<Step<G>>, w: nat)
    requires w in s.waiters && !s.waiters[w].phase.Done? && cond(w, s.grid)
    requires Run(cond, s, steps).Some? && LeavesGrid(steps)
    ensures var t := Run(cond, s, steps).value;
            && w in t.waiters && t.grid == s.grid
            && OwnSteps(steps, w) + StepsToMatch(t.waiters[w].phase) <= StepsToMatch(s.waiters[w].phase) <= 3
            && (t.waiters[w].phase.Done? ==> In(t, w, Done(Matched)) || Timeout(w) in steps || WakeEnded(w) in steps)
  {
    if steps != [] {
      var front := steps[..|steps| - 1];
      AcceptedGridBoundsEveryRun(cond, s, front, w);
      AcceptedStep(cond, Run(cond, s, front).value, steps[|steps| - 1], w);
      assert steps == front + [steps[|steps| - 1]];
    }
  }

  lemma AcceptedStep<G>(cond: Condition<G>, s: State<G>, step: Step<G>, w: nat)
    requires w in s.waiters && cond(w, s.grid) && !ChangesGrid(step) && Apply(cond, s, step).Some?
    ensures var t := Apply(cond, s, step).value;
            && w in t.waiters && t.grid == s.grid
            && StepsToMatch(t.waiters[w].phase) + (if OwnStep(step, w) then 1 else 0) <= StepsToMatch(s.waiters[w].phase)
            && (s.waiters[w].phase.Done? ==> t.waiters[w].phase == s.waiters[w].phase)
            && (t.waiters[w].phase.Done? && !s.waiters[w].phase.Done? ==>
                  In(t, w, Done(Matched)) || step == Timeout(w) || step == WakeEnded(w))
  {
  }

  /** Meanwhile it is never stuck: in every reachable state it can take its next step as
      soon as no producer is in the middle of announcing a change. */
  lemma AcceptedGridBlocksNobody<G(!new)>(cond: Condition<G>, s: State<G>, w: nat)
    requires Reachable(cond, s) && w in s.waiters && !s.waiters[w].phase.Done? && cond(w, s.grid)
    requires LockFree(s) && s.feeder != Fed
    ensures OwnStep(NextStep(s, w), w) && Enabled(cond, s, NextStep(s, w))
  {
    if In(s, w, Parked) {
      NoLostWakeup(cond, s, w);
    }
  }

  /** And the producers are never stuck in the middle: at most four steps, none of which
      changes the grid, finish all that is under way. */
  lemma ProducersFinish<G>(cond: Condition<G>, s: State<G>)
    ensures var steps := FinishResize(s) + FinishFeed(s);
            var t := Run(cond, s, steps);
            && |FinishResize(s)| <= 3 && |FinishFeed(s)| <= 1 && LeavesGrid(steps)
            && t.Some? && LockFree(t.value) && t.value.feeder != Fed && t.value.grid == s.grid && t.value.waiters == s.waiters
  {
    FinishResizeRuns(cond, s);
    var s1 := Run(cond, s, FinishResize(s)).value;
    FinishFeedRuns(cond, s1);
    assert FinishFeed(s1) == FinishFeed(s);
    RunConcat(cond, s, FinishResize(s), FinishFeed(s));
    FinishLeavesGrid(s);
  }

  lemma FinishFeedRuns<G>(cond: Condition<G>, s: State<G>)
    ensures var t := Run(cond, s, FinishFeed(s));
            t.Some? && t.value.feeder != Fed && t.value.resizer == s.resizer && t.value.grid == s.grid && t.value.waiters == s.waiters
  {
    var none: seq<Step<G>> := [];
    RunMore(cond, s, none, Bump);
    assert none + [Bump] == [Bump];
  }

  lemma {:induction false} LeavesGridByPosition<G>(steps: seq<Step<G>>)
    ensures LeavesGrid(steps) <==> forall k | 0 <= k < |steps| :: !ChangesGrid(steps[k])
  {
    if steps != [] {
      LeavesGridByPosition(steps[..|steps| - 1]);
    }
  }

  lemma FinishLeavesGrid<G>(s: State<G>)
    ensures LeavesGrid(FinishResize(s) + FinishFeed(s))
  {
    LeavesGridByPosition(FinishResize(s) + FinishFeed(s));
  }

  // ---------- Some run ----------

  /** A waiter about to mark the generation of a channel that has ended leaves. */
  lemma LastRound<G>(cond: Condition<G>, s: State<G>, w: nat) returns (steps: seq<Step<G>>)
    requires In(s, w, Top) && LockFree(s) && !SenderAlive(s)
    ensures |steps| <= 3 && Run(cond, s, steps).Some?
    ensures var t := Run(cond, s, steps).value; In(t, w, Done(Matched)) || In(t, w, Done(Ended))
  {
    var none: seq<Step<G>> := [];
    steps := none + [Mark(w)] + [Check(w)];
    RunMore(cond, s, none, Mark(w));
    RunMore(cond, s, none + [Mark(w)], Check(w));
    if !cond(w, s.grid) {
      RunMore(cond, s, steps, WakeEnded(w));
      steps := steps + [WakeEnded(w)];
    }
  }

  lemma ParkedMoves<G>(cond: Condition<G>, s: State<G>, w: nat) returns (step: Step<G>)
    requires In(s, w, Parked) && LockFree(s) && !SenderAlive(s)
    ensures Apply(cond, s, step).Some?
    ensures var t := Apply(cond, s, step).value; LockFree(t) && (In(t, w, Top) || In(t, w, Done(Ended)))
  {
    step := if s.waiters[w].seen != s.generation then Wake(w) else WakeEnded(w);
  }

  lemma MarkedMoves<G>(cond: Condition<G>, s: State<G>, w: nat)
    requires In(s, w, Marked) && LockFree(s)
    ensures Apply(cond, s, Check(w)).Some?
    ensures var t := Apply(cond, s, Check(w)).value;
            LockFree(t) && t.feeder == s.feeder && (In(t, w, Done(Matched)) || In(t, w, Parked))
  {
  }

  /** The steps before the last round, if the waiter is not there yet. */
  lemma ToTheTop<G>(cond: Condition<G>, s: State<G>, w: nat) returns (steps: seq<Step<G>>)
    requires w in s.waiters && !s.waiters[w].phase.Done? && LockFree(s) && !SenderAlive(s)
    ensures |steps| <= 2 && Run(cond, s, steps).Some?
    ensures var t := Run(cond, s, steps).value;
            LockFree(t) && (In(t, w, Top) || In(t, w, Done(Matched)) || In(t, w, Done(Ended)))
  {
    steps := [];
    if In(s, w, Parked) {
      var step := ParkedMoves(cond, s, w);
      RunMore(cond, s, steps, step);
      steps := steps + [step];
    } else if In(s, w, Marked) {
      MarkedMoves(cond, s, w);
      RunMore(cond, s, steps, Check(w));
      steps := steps + [Check(w)];
      var t := Run(cond, s, steps).value;
      if In(t, w, Parked) {
        var step := ParkedMoves(cond, t, w);
        RunMore(cond, s, steps, step);
        steps := steps + [step];
      }
    }
  }

  /** Once the sender is gone no waiter stays: whatever it was doing, at most eight steps,
      none of them the feeder's, let it leave matched or ended. */
  lemma NoWaiterStays<G>(cond: Condition<G>, s: State<G>, w: nat)
    requires !SenderAlive(s) && w in s.waiters && !s.waiters[w].phase.Done?
    ensures exists steps ::
              var t := Run(cond, s, steps);
              t.Some? && |steps| <= 8 && (In(t.value, w, Done(Matched)) || In(t.value, w, Done(Ended)))
  {
    var a := FinishResize(s);
    FinishResizeRuns(cond, s);
    SenderStaysGone(cond, s, a);
    var s1 := Run(cond, s, a).value;
    var b := ToTheTop(cond, s1, w);
    SenderStaysGone(cond, s1, b);
    RunConcat(cond, s, a, b);
    var s2 := Run(cond, s, a + b).value;
    if In(s2, w, Top) {
      var c := LastRound(cond, s2, w);
      RunConcat(cond, s, a + b, c);
      assert Run(cond, s, a + b + c) == Run(cond, s2, c);
    } else {
      assert Run(cond, s, a + b) == Some(s2);
    }
  }

  /** A waiter that leaves because the session ended has checked the final grid exactly
      when no silent resize has happened since, and none is under way. */
  lemma EndedHasSeenTheGridIff<G(!new)>(cond: Condition<G>, s: State<G>, w: nat)
    requires Reachable(cond, s) && Enabled(cond, s, WakeEnded(w))
    ensures s.waiters[w].checked == s.version <==>
            s.silent == s.waiters[w].silentBefore && ResizeInFlight(s) == 0
    ensures s.silent == s.waiters[w].silentBefore && ResizeInFlight(s) == 0 ==> !cond(w, s.grid)
  {
    ReachableInv(cond, s);
    assert WaiterInv(cond, s, w);
  }

  /** After the feeder's exit a resize is silent, so the grid an ended waiter reports
      need not be final: here it is told "ended" while the grid meets its condition. */
  lemma EndedCanMissAResize()
    ensures var accepts := (w: nat, g: bool) => g;
            var steps := [Arrive(0), Mark(0), Check(0), FeederExit, ResizeLock, ResizeGrid(true),
                          ResizeUpgrade, ResizeUnlock, WakeEnded(0)];
            var t := Run(accepts, Init(false), steps);
            t.Some? && In(t.value, 0, Done(Ended)) && accepts(0, t.value.grid)
  {
    var accepts := (w: nat, g: bool) => g;
    var s := Init(false);
    var r0: seq<Step<bool>> := [];
    var r1 := r0 + [Arrive(0)];
    RunMore(accepts, s, r0, Arrive(0));
    var r2 := r1 + [Mark(0)];
    RunMore(accepts, s, r1, Mark(0));
    var r3 := r2 + [Check(0)];
    RunMore(accepts, s, r2, Check(0));
    var r4 := r3 + [FeederExit];
    RunMore(accepts, s, r3, FeederExit);
    var r5 := r4 + [ResizeLock];
    RunMore(accepts, s, r4, ResizeLock);
    var r6 := r5 + [ResizeGrid(true)];
    RunMore(accepts, s, r5, ResizeGrid(true));
    var r7 := r6 + [ResizeUpgrade];
    RunMore(accepts, s, r6, ResizeUpgrade);
    var r8 := r7 + [ResizeUnlock];
    RunMore(accepts, s, r7, ResizeUnlock);
    RunMore(accepts, s, r8, WakeEnded(0));
    assert r8 + [WakeEnded(0)] == [Arrive(0), Mark(0), Check(0), FeederExit, ResizeLock, ResizeGrid(true),
                                   ResizeUpgrade, ResizeUnlock, WakeEnded(0)];
  }

  /** A waiter is told that the session is over only once it is. */
  lemma {:induction false} EndedMeansGone<G(!new)>(cond: Condition<G>, s: State<G>, w: nat)
    requires Reachable(cond, s) && In(s, w, Done(Ended))
    ensures !SenderAlive(s)
  {
    var grid: G, steps :| Run(cond, Init(grid), steps) == Some(s);
    EndedRuns(cond, grid, steps, w);
  }

  lemma {:induction false} EndedRuns<G>(cond: Condition<G>, grid: G, steps: seq<Step<G>>, w: nat)
    requires var t := Run(cond, Init(grid), steps); t.Some? && In(t.value, w, Done(Ended))
    ensures !SenderAlive(Run(cond, Init(grid), steps).value)
  {
    if steps != [] {
      var s := Run(cond, Init(grid), steps[..|steps| - 1]).value;
      if In(s, w, Done(Ended)) {
        EndedRuns(cond, grid, steps[..|steps| - 1], w);
        var none: seq<Step<G>> := [];
        RunMore(cond, s, none, steps[|steps| - 1]);
        SenderStaysGone(cond, s, none + [steps[|steps| - 1]]);
      }
    }
  }
}

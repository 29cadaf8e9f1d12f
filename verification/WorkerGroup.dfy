/** Starting, nudging, stopping and draining a group of background loops (server/internal/worker/worker.go), as a
    machine whose steps any number of callers and loops interleave. */
module WorkerGroup {
  import opened Common

  /** Idle: not launched. Leaving: the loop has seen its context done and is about to count itself out. */
  datatype Loop = Idle | Sleeping | Running | Leaving | Gone

  /** Where a caller of Start or Stop is. Launching holds the mutex. Marked has set stopped and is about to enter the
      once; Cancelling and Spawning are inside it. Drained and TimedOut are the two ways Stop returns. */
  datatype Caller =
    | Outside
    | Launching(left: set<string>)
    | Started
    | Marked
    | Cancelling
    | Spawning
    | Waiting
    | Drained
    | TimedOut
    | NothingToStop

  datatype Once = Fresh | Busy | Done

  datatype Drainer = Absent | OnGroup | Closing | Closed

  /** parentDone: the context Start was given is done. cancelled: the group's own cancel was called. wg: the wait
      group. closes: how often drained was closed. wake: the loops with a nudge pending. */
  datatype Group = Group(
    loops: map<string, Loop>, callers: map<nat, Caller>, mutex: Option<nat>, started: bool, stopped: bool,
    parentDone: bool, cancelled: bool, once: Once, drainer: Drainer, closes: nat, wg: int, wake: set<string>)

  function New(names: set<string>): Group {
    Group(map n | n in names :: Idle, map[], None, false, false, false, false, Fresh, Absent, 0, 0, {})
  }

  function At(g: Group, c: nat): Caller { if c in g.callers then g.callers[c] else Outside }

  function Put(g: Group, c: nat, pc: Caller): Group { g.(callers := g.callers[c := pc]) }

  function LoopAt(g: Group, name: string): Loop { if name in g.loops then g.loops[name] else Idle }

  datatype Step =
    | CallsStart(c: nat)
    | Launches(c: nat, name: string)
    | FinishesStart(c: nat)
    | CallsStop(c: nat)
    | EntersOnce(c: nat)
    | CancelsLoops(c: nat)
    | SpawnsDrainer(c: nat)
    | WaitEnds
    | ClosesDrained
    | SeesDrained(c: nat)
    | TimesOut(c: nat)
    | Nudges(name: string)
    | ParentEnds
    | WakesByTimer(name: string)
    | WakesByNudge(name: string)
    | SeesContextDone(name: string)
    | RunEnds(name: string)
    | CountsOut(name: string)

  function SetLoop(g: Group, name: string, l: Loop): Group { g.(loops := g.loops[name := l]) }

  /** A step of a caller of Start. A step that is not enabled changes nothing. */
  function StartStep(g: Group, s: Step): Group {
    match s
    case CallsStart(c) =>
      if At(g, c) != Outside || g.mutex.Some? then g
      else if g.started || g.stopped then Put(g, c, Started)
      else Put(g, c, Launching(g.loops.Keys)).(mutex := Some(c), started := true)
    case Launches(c, name) =>
      var pc := At(g, c);
      if !pc.Launching? || name !in pc.left || name !in g.loops then g
      else SetLoop(Put(g, c, Launching(pc.left - {name})), name, Sleeping).(wg := g.wg + 1)
    case FinishesStart(c) =>
      if At(g, c) == Launching({}) then Put(g, c, Started).(mutex := None) else g
    case _ => g
  }

  /** A step of a caller of Stop. */
  function StopStep(g: Group, s: Step): Group {
    match s
    case CallsStop(c) =>
      if At(g, c) != Outside || g.mutex.Some? then g
      else Put(g, c, if g.started then Marked else NothingToStop).(stopped := true)
    case EntersOnce(c) =>
      if At(g, c) != Marked || g.once.Busy? then g
      else if g.once.Done? then Put(g, c, Waiting)
      else Put(g, c, Cancelling).(once := Busy)
    case CancelsLoops(c) => if At(g, c) == Cancelling then Put(g, c, Spawning).(cancelled := true) else g
    case SpawnsDrainer(c) => if At(g, c) == Spawning then Put(g, c, Waiting).(once := Done, drainer := OnGroup) else g
    case SeesDrained(c) => if At(g, c) == Waiting && g.closes > 0 then Put(g, c, Drained) else g
    case TimesOut(c) => if At(g, c) == Waiting then Put(g, c, TimedOut) else g
    case _ => g
  }

  /** A step of a loop, of the drainer, of a nudge or of the parent context. A sleeping loop whose context is done
      may still wake by its timer or a nudge: the select picks any branch that is ready. */
  function LoopStep(g: Group, s: Step): Group {
    match s
    case Nudges(name) => if name in g.loops then g.(wake := g.wake + {name}) else g
    case ParentEnds => g.(parentDone := true)
    case WaitEnds => if g.drainer == OnGroup && g.wg == 0 then g.(drainer := Closing) else g
    case ClosesDrained => if g.drainer == Closing then g.(drainer := Closed, closes := g.closes + 1) else g
    case WakesByTimer(name) => if LoopAt(g, name) == Sleeping then SetLoop(g, name, Running) else g
    case WakesByNudge(name) =>
      if LoopAt(g, name) == Sleeping && name in g.wake then SetLoop(g, name, Running).(wake := g.wake - {name}) else g
    case SeesContextDone(name) =>
      if LoopAt(g, name) == Sleeping && (g.cancelled || g.parentDone) then SetLoop(g, name, Leaving) else g
    case RunEnds(name) => if LoopAt(g, name) == Running then SetLoop(g, name, Sleeping) else g
    case CountsOut(name) => if LoopAt(g, name) == Leaving then SetLoop(g, name, Gone).(wg := g.wg - 1) else g
    case _ => g
  }

  function Next(g: Group, s: Step): Group { LoopStep(StopStep(StartStep(g, s), s), s) }

  function After(g: Group, steps: seq<Step>, n: nat): Group
    requires n <= |steps|
  {
    if n == 0 then g else Next(After(g, steps, n - 1), steps[n - 1])
  }

  // ---- What every step keeps ----

  predicate Counted(l: Loop) { l == Sleeping || l == Running || l == Leaving }

  function Live(g: Group): set<string> { set name | name in g.loops && Counted(g.loops[name]) }

  predicate InOnce(pc: Caller) { pc == Cancelling || pc == Spawning }

  predicate BeyondMark(pc: Caller) { pc == Marked || InOnce(pc) || pc == Waiting || pc == Drained || pc == TimedOut }

  /** Only the holder of the mutex launches, and what it has left is not launched yet; nobody is past a Stop's mark
      unless the group is marked; a group stopped before it was started never is. */
  predicate LockOk(g: Group, c: nat) {
    var pc := At(g, c);
    && (pc.Launching? ==>
          g.mutex == Some(c) && forall name :: name in pc.left && name in g.loops ==> g.loops[name] == Idle)
    && (BeyondMark(pc) ==> g.stopped)
    && (pc == NothingToStop ==> g.stopped && !g.started)
  }

  predicate DrainOk(g: Group, c: nat) {
    var pc := At(g, c);
    && (InOnce(pc) ==> g.once.Busy?)
    && (pc == Spawning ==> g.cancelled)
    && (pc == Drained ==> g.closes > 0)
  }

  predicate CallerOk(g: Group, c: nat) { LockOk(g, c) && DrainOk(g, c) }

  /** The mutex is held only while launching; the once is entered only after the mark; there is one drainer, spawned at
      the end of the once; drained is closed by it alone. */
  ghost predicate SharedOk(g: Group) {
    && (g.mutex.Some? ==> At(g, g.mutex.value).Launching? && g.started && !g.stopped)
    && (!g.once.Fresh? ==> g.stopped)
    && (g.drainer.Absent? <==> !g.once.Done?)
    && (g.once.Done? ==> g.cancelled)
    && g.closes == (if g.drainer.Closed? then 1 else 0)
    && (!g.started ==> forall name :: name in g.loops ==> g.loops[name] == Idle)
  }

  /** The body of the once runs in at most one caller. */
  ghost predicate OnceOnly(g: Group) {
    forall c: nat, d: nat :: InOnce(At(g, c)) && InOnce(At(g, d)) ==> c == d
  }

  ghost predicate CountKept(g: Group) { g.wg == |Live(g)| }

  /** Once the drainer's wait has ended no loop is live. */
  ghost predicate Quiet(g: Group) {
    g.drainer.Closing? || g.drainer.Closed? ==> Live(g) == {}
  }

  ghost predicate CallersOk(g: Group) { forall c: nat :: CallerOk(g, c) }

  ghost predicate Safe(g: Group) { CallersOk(g) && SharedOk(g) && OnceOnly(g) && CountKept(g) && Quiet(g) }

  lemma StartKeepsLock(g: Group, s: Step, c: nat)
    requires CallersOk(g) && SharedOk(g)
    ensures LockOk(StartStep(g, s), c)
  {
    assert CallerOk(g, c);
    if s.Launches? || s.FinishesStart? {
      assert CallerOk(g, s.c);
    }
    hide DrainOk, CallersOk;
  }

  lemma StartKeepsDrain(g: Group, s: Step, c: nat)
    requires DrainOk(g, c)
    ensures DrainOk(StartStep(g, s), c)
  {
  }

  lemma StartKeepsShared(g: Group, s: Step)
    requires CallersOk(g) && SharedOk(g) && OnceOnly(g)
    ensures SharedOk(StartStep(g, s)) && OnceOnly(StartStep(g, s))
  {
    if s.Launches? || s.FinishesStart? {
      assert CallerOk(g, s.c);
    }
    forall c: nat ensures InOnce(At(StartStep(g, s), c)) <==> InOnce(At(g, c)) {
    }
  }

  lemma StartKeepsCount(g: Group, s: Step)
    requires CallersOk(g) && SharedOk(g) && CountKept(g) && Quiet(g)
    ensures CountKept(StartStep(g, s)) && Quiet(StartStep(g, s))
  {
    if s.Launches? && StartStep(g, s) != g {
      assert CallerOk(g, s.c);
      assert Live(StartStep(g, s)) == Live(g) + {s.name} && s.name !in Live(g);
    } else {
      assert Live(StartStep(g, s)) == Live(g);
    }
  }

  lemma StopFrame(g: Group, s: Step)
    ensures var after := StopStep(g, s);
            && after.mutex == g.mutex && after.loops == g.loops && after.started == g.started && after.wg == g.wg
            && (g.stopped ==> after.stopped)
            && (after.drainer == g.drainer || after.drainer == OnGroup)
  {
    hide At;
  }

  lemma StopMoves(g: Group, s: Step, c: nat)
    ensures var before, now := At(g, c), At(StopStep(g, s), c);
            now == before
            || (&& !now.Launching?
                && (BeyondMark(now) ==> BeyondMark(before) || StopStep(g, s).stopped)
                && (now == NothingToStop ==> StopStep(g, s).stopped && !g.started))
  {
  }

  lemma StopKeepsLock(g: Group, s: Step, c: nat)
    requires CallerOk(g, c)
    ensures LockOk(StopStep(g, s), c)
  {
    StopFrame(g, s);
    StopMoves(g, s, c);
    hide StopStep, At, DrainOk;
  }

  lemma StopKeepsDrain(g: Group, s: Step, c: nat)
    requires CallersOk(g) && SharedOk(g) && OnceOnly(g)
    ensures DrainOk(StopStep(g, s), c)
  {
    assert CallerOk(g, c);
    hide LockOk;
    if s.SpawnsDrainer? || s.CancelsLoops? {
      assert CallerOk(g, s.c);
    }
  }

  lemma StopKeepsShared(g: Group, s: Step)
    requires CallersOk(g) && SharedOk(g)
    ensures SharedOk(StopStep(g, s))
  {
    if s.EntersOnce? || s.SpawnsDrainer? || s.CancelsLoops? {
      assert CallerOk(g, s.c);
    }
  }

  lemma OnlyEnteringEnters(g: Group, s: Step, c: nat)
    requires InOnce(At(StopStep(g, s), c)) && !InOnce(At(g, c))
    ensures s == EntersOnce(c) && g.once.Fresh?
  {
  }

  lemma TwoInOnce(g: Group, s: Step, c: nat, d: nat)
    requires CallerOk(g, c) && CallerOk(g, d) && OnceOnly(g)
    requires InOnce(At(StopStep(g, s), c)) && InOnce(At(StopStep(g, s), d))
    ensures c == d
  {
    hide StopStep;
    if !InOnce(At(g, c)) {
      OnlyEnteringEnters(g, s, c);
    }
    if !InOnce(At(g, d)) {
      OnlyEnteringEnters(g, s, d);
    }
  }

  lemma StopKeepsOnce(g: Group, s: Step)
    requires CallersOk(g) && OnceOnly(g)
    ensures OnceOnly(StopStep(g, s))
  {
    hide StopStep, CallerOk, InOnce;
    forall c: nat, d: nat | InOnce(At(StopStep(g, s), c)) && InOnce(At(StopStep(g, s), d)) ensures c == d {
      TwoInOnce(g, s, c, d);
    }
  }

  lemma StopKeepsCount(g: Group, s: Step)
    requires CountKept(g) && Quiet(g)
    ensures CountKept(StopStep(g, s)) && Quiet(StopStep(g, s))
  {
    StopFrame(g, s);
    hide StopStep;
    assert Live(StopStep(g, s)) == Live(g);
  }

  lemma LoopStepKeepsCaller(g: Group, s: Step, c: nat)
    requires CallersOk(g)
    ensures CallerOk(LoopStep(g, s), c)
  {
    assert CallerOk(g, c);
    assert At(LoopStep(g, s), c) == At(g, c);
  }

  lemma LoopStepKeepsShared(g: Group, s: Step)
    requires SharedOk(g) && OnceOnly(g)
    ensures SharedOk(LoopStep(g, s)) && OnceOnly(LoopStep(g, s))
  {
    var after := LoopStep(g, s);
    forall c: nat ensures At(after, c) == At(g, c) {
    }
  }

  /** The loops' own steps make no loop live, and a loop that counts itself out leaves both counts. */
  lemma LoopStepShrinksLive(g: Group, s: Step)
    ensures Live(LoopStep(g, s)) == if s.CountsOut? && LoopAt(g, s.name) == Leaving then Live(g) - {s.name} else Live(g)
  {
  }

  lemma LoopStepKeepsCount(g: Group, s: Step)
    requires CountKept(g) && Quiet(g)
    ensures CountKept(LoopStep(g, s)) && Quiet(LoopStep(g, s))
  {
    LoopStepShrinksLive(g, s);
    if s.CountsOut? && LoopAt(g, s.name) == Leaving {
      assert s.name in Live(g);
    }
    hide Live, LoopAt;
    if s.WaitEnds? && g.wg == 0 {
      assert |Live(g)| == 0;
    }
  }

  lemma StartKeepsSafe(g: Group, s: Step)
    requires Safe(g)
    ensures Safe(StartStep(g, s))
  {
    forall c: nat ensures CallerOk(StartStep(g, s), c) {
      assert CallerOk(g, c);
      StartKeepsLock(g, s, c);
      StartKeepsDrain(g, s, c);
    }
    StartKeepsShared(g, s);
    StartKeepsCount(g, s);
    hide StartStep, LockOk, DrainOk, SharedOk, OnceOnly, CountKept, Quiet;
  }

  lemma StopKeepsSafe(g: Group, s: Step)
    requires Safe(g)
    ensures Safe(StopStep(g, s))
  {
    forall c: nat ensures CallerOk(StopStep(g, s), c) {
      assert CallerOk(g, c);
      StopKeepsLock(g, s, c);
      StopKeepsDrain(g, s, c);
    }
    StopKeepsShared(g, s);
    StopKeepsOnce(g, s);
    StopKeepsCount(g, s);
    hide StopStep, LockOk, DrainOk, SharedOk, OnceOnly, CountKept, Quiet;
  }

  lemma LoopKeepsSafe(g: Group, s: Step)
    requires Safe(g)
    ensures Safe(LoopStep(g, s))
  {
    forall c: nat ensures CallerOk(LoopStep(g, s), c) {
      LoopStepKeepsCaller(g, s, c);
    }
    LoopStepKeepsShared(g, s);
    LoopStepKeepsCount(g, s);
    hide LoopStep, CallerOk, SharedOk, OnceOnly, CountKept, Quiet;
  }

  lemma StepKeepsSafe(g: Group, s: Step)
    requires Safe(g)
    ensures Safe(Next(g, s))
  {
    StartKeepsSafe(g, s);
    StopKeepsSafe(StartStep(g, s), s);
    LoopKeepsSafe(StopStep(StartStep(g, s), s), s);
    hide StartStep, StopStep, LoopStep, Safe;
  }

  lemma NewIsSafe(names: set<string>)
    ensures Safe(New(names))
  {
    assert Live(New(names)) == {};
  }

  lemma {:induction false} RunIsSafe(names: set<string>, steps: seq<Step>, n: nat)
    requires n <= |steps|
    ensures Safe(After(New(names), steps, n))
  {
    hide Next, Safe;
    if n == 0 {
      NewIsSafe(names);
    } else {
      RunIsSafe(names, steps, n - 1);
      StepKeepsSafe(After(New(names), steps, n - 1), steps[n - 1]);
    }
  }

  // ---- Main results ----

  /** No loop is running, and none is where a Run could start. */
  predicate AllQuiet(g: Group) { Live(g) == {} && forall name :: name in g.loops ==> g.loops[name] != Running }

  predicate StopReturned(g: Group, c: nat) { At(g, c) == Drained || At(g, c) == NothingToStop }

  lemma StopReturnedStays(g: Group, s: Step, c: nat)
    ensures StopReturned(g, c) ==> StopReturned(Next(g, s), c)
  {
  }

  lemma ReturnedIsQuiet(g: Group, c: nat)
    requires Safe(g) && StopReturned(g, c)
    ensures AllQuiet(g)
  {
    assert CallerOk(g, c);
    assert Live(g) == {};
    forall name | name in g.loops ensures g.loops[name] != Running {
      assert name !in Live(g);
    }
  }

  /** When a Stop has returned because the drain finished, or because the group was never started, no scheduled Run is
      in progress and none ever starts afterwards: for any loops, callers, nudges and interleaving. */
  lemma {:induction false} DrainIsSafe(names: set<string>, steps: seq<Step>, m: nat, n: nat, c: nat)
    requires m <= n <= |steps| && StopReturned(After(New(names), steps, m), c)
    ensures StopReturned(After(New(names), steps, n), c) && AllQuiet(After(New(names), steps, n))
  {
    hide Next, AllQuiet, StopReturned, Safe;
    if m < n {
      DrainIsSafe(names, steps, m, n - 1, c);
      StopReturnedStays(After(New(names), steps, n - 1), steps[n - 1], c);
    }
    RunIsSafe(names, steps, n);
    ReturnedIsQuiet(After(New(names), steps, n), c);
  }

  /** Closing a closed channel would panic: drained is closed at most once. */
  lemma DrainedClosedAtMostOnce(names: set<string>, steps: seq<Step>, n: nat)
    requires n <= |steps|
    ensures After(New(names), steps, n).closes <= 1
  {
    RunIsSafe(names, steps, n);
    hide After;
  }

  lemma StoppedStepLaunchesNothing(g: Group, s: Step, name: string)
    requires Safe(g) && g.stopped
    ensures Next(g, s).stopped && (LoopAt(g, name) == Idle ==> LoopAt(Next(g, s), name) == Idle)
              && Next(g, s).wg <= g.wg
  {
    if s.Launches? {
      assert CallerOk(g, s.c);
    }
    hide Live, Quiet, CountKept, OnceOnly, CallerOk;
  }

  /** From the moment a Stop has marked the group, no Start launches a loop, then or later, and the wait group only
      goes down. */
  lemma {:induction false} NothingLaunchesAfterStop(names: set<string>, steps: seq<Step>, m: nat, n: nat, name: string)
    requires m <= n <= |steps| && After(New(names), steps, m).stopped
    ensures After(New(names), steps, n).stopped
    ensures LoopAt(After(New(names), steps, m), name) == Idle ==> LoopAt(After(New(names), steps, n), name) == Idle
    ensures After(New(names), steps, n).wg <= After(New(names), steps, m).wg
  {
    hide Next, Safe, LoopAt;
    if m < n {
      NothingLaunchesAfterStop(names, steps, m, n - 1, name);
      RunIsSafe(names, steps, n - 1);
      StoppedStepLaunchesNothing(After(New(names), steps, n - 1), steps[n - 1], name);
    }
  }

  /** The wait group never goes below zero, so counting out never panics, and it stands at the loops still live. */
  lemma WaitGroupCountsLiveLoops(names: set<string>, steps: seq<Step>, n: nat)
    requires n <= |steps|
    ensures After(New(names), steps, n).wg == |Live(After(New(names), steps, n))|
  {
    RunIsSafe(names, steps, n);
    hide After;
  }

  // ---- The drain can always finish ----

  /** Once a Stop has cancelled the loops, letting each Run in flight end and each loop see its context done finishes
      the drain: there is always a schedule that closes drained, with no Run started on the way. */
  lemma {:induction false} DrainCanFinish(g: Group) returns (steps: seq<Step>)
    requires Safe(g) && g.drainer == OnGroup
    ensures After(g, steps, |steps|).closes == 1
    ensures forall i :: 0 <= i < |steps| ==> !steps[i].WakesByTimer? && !steps[i].WakesByNudge?
    decreases |Live(g)|
  {
    hide Safe, Next, Live;
    if Live(g) == {} {
      steps := [WaitEnds, ClosesDrained];
      LastSteps(g);
    } else {
      var name :| name in Live(g);
      var gone, first := LoopGoes(g, name);
      var rest := DrainCanFinish(gone);
      steps := first + rest;
      AfterAppend(g, first, rest, |rest|);
    }
  }

  lemma LastSteps(g: Group)
    requires Safe(g) && g.drainer == OnGroup && Live(g) == {}
    ensures After(g, [WaitEnds, ClosesDrained], 2).closes == 1
  {
    var steps := [WaitEnds, ClosesDrained];
    assert After(g, steps, 1) == Next(g, WaitEnds) by {
      assert After(g, steps, 0) == g;
    }
    assert Next(g, WaitEnds) == g.(drainer := Closing);
  }

  lemma {:induction false} AfterAppend(g: Group, first: seq<Step>, rest: seq<Step>, n: nat)
    requires n <= |rest|
    ensures After(g, first + rest, |first| + n) == After(After(g, first, |first|), rest, n)
  {
    hide Next;
    if n == 0 {
      AfterPrefix(g, first, rest, |first|);
    } else {
      AfterAppend(g, first, rest, n - 1);
      assert (first + rest)[|first| + n - 1] == rest[n - 1];
    }
  }

  lemma {:induction false} AfterPrefix(g: Group, first: seq<Step>, rest: seq<Step>, n: nat)
    requires n <= |first|
    ensures After(g, first + rest, n) == After(g, first, n)
  {
    hide Next;
    if n > 0 {
      AfterPrefix(g, first, rest, n - 1);
    }
  }

  /** Takes one live loop out. */
  lemma LoopGoes(g: Group, name: string) returns (gone: Group, steps: seq<Step>)
    requires Safe(g) && g.drainer == OnGroup && name in Live(g)
    ensures gone == After(g, steps, |steps|) && Safe(gone) && gone.drainer == OnGroup && Live(gone) == Live(g) - {name}
    ensures forall i :: 0 <= i < |steps| ==> !steps[i].WakesByTimer? && !steps[i].WakesByNudge?
  {
    steps := [RunEnds(name), SeesContextDone(name), CountsOut(name)];
    var a := Next(g, RunEnds(name));
    var b := Next(a, SeesContextDone(name));
    gone := Next(b, CountsOut(name));
    ThreeSteps(g, steps);
    StepKeepsSafe(g, steps[0]);
    StepKeepsSafe(a, steps[1]);
    StepKeepsSafe(b, steps[2]);
    LoopGoesStates(g, name);
    hide Next, Safe;
  }

  lemma LoopGoesStates(g: Group, name: string)
    requires g.drainer == OnGroup && g.cancelled && name in Live(g)
    ensures var gone := Next(Next(Next(g, RunEnds(name)), SeesContextDone(name)), CountsOut(name));
            gone.drainer == OnGroup && Live(gone) == Live(g) - {name}
  {
    var a := Next(g, RunEnds(name));
    var b := Next(a, SeesContextDone(name));
    assert LoopAt(b, name) == Leaving && b.drainer == OnGroup;
    LoopStepShrinksLive(g, RunEnds(name));
    LoopStepShrinksLive(a, SeesContextDone(name));
    LoopStepShrinksLive(b, CountsOut(name));
    hide LoopStep, Live;
  }

  lemma ThreeSteps(g: Group, steps: seq<Step>)
    requires |steps| == 3
    ensures After(g, steps, 3) == Next(Next(Next(g, steps[0]), steps[1]), steps[2])
  {
    hide Next;
    assert After(g, steps, 1) == Next(After(g, steps, 0), steps[0]);
    assert After(g, steps, 2) == Next(After(g, steps, 1), steps[1]);
  }

  // ---- A start launches every loop ----

  /** While a started group is not being launched any more, every loop has been. */
  ghost predicate LaunchKept(g: Group) {
    forall name :: name in g.loops && g.started && g.loops[name] == Idle ==>
      && g.mutex.Some? && At(g, g.mutex.value).Launching? && name in At(g, g.mutex.value).left
  }

  lemma StartStepFrame(g: Group, s: Step)
    ensures StartStep(g, s).loops.Keys == g.loops.Keys
  {
  }

  lemma LoopStepFrame(g: Group, s: Step)
    ensures var after := LoopStep(g, s);
            after.callers == g.callers && after.mutex == g.mutex && after.started == g.started
  {
    hide At, LoopAt;
  }

  lemma LoopStepKeepsLoops(g: Group, s: Step)
    ensures LoopStep(g, s).loops.Keys == g.loops.Keys
  {
    match s {
      case WakesByTimer(name) =>
      case WakesByNudge(name) =>
      case SeesContextDone(name) =>
      case RunEnds(name) =>
      case CountsOut(name) =>
      case _ =>
    }
  }

  lemma LoopStepLaunchesNothing(g: Group, s: Step, name: string)
    requires name in g.loops
    ensures name in LoopStep(g, s).loops && (LoopStep(g, s).loops[name] == Idle ==> g.loops[name] == Idle)
  {
    hide At;
  }

  lemma StepKeepsLoops(g: Group, s: Step)
    ensures Next(g, s).loops.Keys == g.loops.Keys
  {
    hide StartStep, StopStep, LoopStep;
    StartStepFrame(g, s);
    StopFrame(StartStep(g, s), s);
    LoopStepKeepsLoops(StopStep(StartStep(g, s), s), s);
  }

  lemma StartKeepsLaunch(g: Group, s: Step)
    requires CallersOk(g) && SharedOk(g) && LaunchKept(g)
    ensures LaunchKept(StartStep(g, s))
  {
    if s.Launches? || s.FinishesStart? {
      assert CallerOk(g, s.c);
    }
    hide CallersOk, DrainOk;
  }

  lemma StopKeepsLaunch(g: Group, s: Step)
    requires LaunchKept(g)
    ensures LaunchKept(StopStep(g, s))
  {
    StopFrame(g, s);
    if g.mutex.Some? && At(g, g.mutex.value).Launching? {
      StopKeepsLauncher(g, s, g.mutex.value);
    }
    hide StopStep;
  }

  lemma StopKeepsLauncher(g: Group, s: Step, c: nat)
    requires At(g, c).Launching?
    ensures At(StopStep(g, s), c) == At(g, c)
  {
  }

  lemma LoopStepKeepsLaunch(g: Group, s: Step)
    requires LaunchKept(g)
    ensures LaunchKept(LoopStep(g, s))
  {
    hide LoopStep;
    LoopStepFrame(g, s);
    LoopStepKeepsLoops(g, s);
    forall name | name in g.loops ensures LoopStep(g, s).loops[name] == Idle ==> g.loops[name] == Idle {
      LoopStepLaunchesNothing(g, s, name);
    }
  }

  /** Over every run: once a Start has begun and nobody holds the mutex, every loop of the group has been launched. */
  lemma {:induction false} StartLaunchesAll(names: set<string>, steps: seq<Step>, n: nat)
    requires n <= |steps|
    ensures After(New(names), steps, n).loops.Keys == names && LaunchKept(After(New(names), steps, n))
    ensures var g := After(New(names), steps, n);
            g.started && g.mutex == None ==> forall name :: name in names ==> LoopAt(g, name) != Idle
  {
    hide Next, Safe;
    if n > 0 {
      StartLaunchesAll(names, steps, n - 1);
      RunIsSafe(names, steps, n - 1);
      StepKeepsLaunch(After(New(names), steps, n - 1), steps[n - 1]);
      StepKeepsLoops(After(New(names), steps, n - 1), steps[n - 1]);
    }
  }

  lemma StepKeepsLaunch(g: Group, s: Step)
    requires Safe(g) && LaunchKept(g)
    ensures LaunchKept(Next(g, s))
  {
    SafeParts(g);
    hide StartStep, StopStep, LoopStep, LaunchKept, Safe, CallersOk, SharedOk;
    StartKeepsLaunch(g, s);
    StopKeepsLaunch(StartStep(g, s), s);
    LoopStepKeepsLaunch(StopStep(StartStep(g, s), s), s);
  }

  lemma SafeParts(g: Group)
    requires Safe(g)
    ensures CallersOk(g) && SharedOk(g)
  {
  }

  /** Start on a group nobody started or stopped begins to launch every loop; on any other it returns at once. */
  lemma StartBegins(g: Group, c: nat)
    requires At(g, c) == Outside && g.mutex == None
    ensures var after := Next(g, CallsStart(c));
            if g.started || g.stopped then after == Put(g, c, Started)
            else && after.started && after.mutex == Some(c) && At(after, c) == Launching(g.loops.Keys)
                 && after.loops == g.loops && after.wg == g.wg
  {
  }

  /** While a Start is launching, nobody else gets past the mutex. */
  lemma HeldMutexBlocks(g: Group, c: nat)
    requires g.mutex.Some? && At(g, c) == Outside
    ensures Next(g, CallsStart(c)) == g && Next(g, CallsStop(c)) == g
  {
  }

  /** From there launching what is left, in any order, and finishing returns: each of those loops sleeps and is
      counted. */
  lemma {:induction false} StartCanFinish(g: Group, c: nat, order: seq<string>) returns (steps: seq<Step>)
    requires At(g, c).Launching? && At(g, c).left <= g.loops.Keys
    requires (forall name :: name in order <==> name in At(g, c).left) && |order| == |At(g, c).left|
    ensures var after := After(g, steps, |steps|);
            && At(after, c) == Started && after.mutex == None && after.wg == g.wg + |order|
            && (forall name :: name in order ==> LoopAt(after, name) == Sleeping)
            && forall name :: name !in order ==> LoopAt(after, name) == LoopAt(g, name)
    decreases |order|
  {
    if order == [] {
      assert At(g, c).left == {};
      steps := [FinishesStart(c)];
      assert After(g, steps, 1) == Next(After(g, steps, 0), steps[0]);
    } else {
      var name, rest := order[0], order[1..];
      var left := At(g, c).left;
      var launched := Next(g, Launches(c, name));
      OnceListed(order, left);
      LaunchOne(g, c, name);
      var more := StartCanFinish(launched, c, rest);
      steps := [Launches(c, name)] + more;
      AfterAppend(g, [Launches(c, name)], more, |more|);
      assert After(g, [Launches(c, name)], 1) == Next(After(g, [Launches(c, name)], 0), Launches(c, name));
    }
  }

  lemma LaunchOne(g: Group, c: nat, name: string)
    requires At(g, c).Launching? && name in At(g, c).left && name in g.loops
    ensures var after := Next(g, Launches(c, name));
            && At(after, c) == Launching(At(g, c).left - {name}) && after.loops == g.loops[name := Sleeping]
            && after.wg == g.wg + 1
  {
  }

  /** A list of all of a set that is no longer than the set lists each once. */
  lemma OnceListed(order: seq<string>, all: set<string>)
    requires |order| > 0 && (forall name :: name in order <==> name in all) && |order| == |all|
    ensures order[0] in all && order[0] !in order[1..]
    ensures (forall name :: name in order[1..] <==> name in all - {order[0]}) && |order[1..]| == |all - {order[0]}|
  {
    assert order == [order[0]] + order[1..];
    ListIsLongEnough(order[1..], all - {order[0]});
    if order[0] in order[1..] {
      ListIsLongEnough(order[1..], all);
    }
  }

  lemma {:induction false} ListIsLongEnough(order: seq<string>, all: set<string>)
    requires forall name :: name in all ==> name in order
    ensures |all| <= |order|
  {
    if order == [] {
      assert all == {};
    } else {
      assert order == [order[0]] + order[1..];
      ListIsLongEnough(order[1..], all - {order[0]});
    }
  }

  predicate OfStop(s: Step) { s.CallsStop? || s.EntersOnce? || s.CancelsLoops? || s.SpawnsDrainer? }

  lemma NextOfStop(g: Group, s: Step)
    requires OfStop(s)
    ensures Next(g, s) == StopStep(g, s)
  {
    hide At, LoopAt;
  }

  /** A Stop of a group never started returns at once and keeps it from starting. */
  lemma StopUnstarted(g: Group, c: nat)
    requires At(g, c) == Outside && g.mutex == None && !g.started
    ensures Next(g, CallsStop(c)) == Put(g, c, NothingToStop).(stopped := true)
  {
    NextOfStop(g, CallsStop(c));
    hide Next;
  }

  /** The first Stop of a started one goes on to cancel the loops and to spawn the drainer. */
  lemma StopBegins(g: Group, c: nat)
    requires At(g, c) == Outside && g.mutex == None && g.started && g.once == Fresh
    ensures var cancelled := Next(Next(Next(g, CallsStop(c)), EntersOnce(c)), CancelsLoops(c));
            var after := Next(cancelled, SpawnsDrainer(c));
            && cancelled.cancelled && cancelled.stopped && after.drainer == OnGroup && At(after, c) == Waiting
            && after.loops == g.loops
  {
    hide Next;
    NextOfStop(g, CallsStop(c));
    var marked := Next(g, CallsStop(c));
    NextOfStop(marked, EntersOnce(c));
    var entered := Next(marked, EntersOnce(c));
    NextOfStop(entered, CancelsLoops(c));
    NextOfStop(Next(entered, CancelsLoops(c)), SpawnsDrainer(c));
  }

  /** A waiting Stop returns drained exactly when drained is closed, and times out at any moment; a later Stop waits for
      the same drain. */
  lemma StopReturns(g: Group, c: nat)
    ensures At(g, c) == Waiting ==>
      && At(Next(g, SeesDrained(c)), c) == (if g.closes > 0 then Drained else Waiting)
      && At(Next(g, TimesOut(c)), c) == TimedOut
    ensures At(g, c) == Marked && g.once == Done ==> Next(g, EntersOnce(c)) == Put(g, c, Waiting)
    ensures At(g, c) == Marked && g.once == Busy ==> Next(g, EntersOnce(c)) == g
  {
    hide LoopAt;
  }

  /** A sleeping loop runs when its timer fires or a nudge is pending, which the run uses up; a nudge nobody gave wakes
      nobody. */
  lemma LoopWakes(g: Group, name: string)
    requires LoopAt(g, name) == Sleeping
    ensures LoopAt(Next(g, WakesByTimer(name)), name) == Running
    ensures name in g.wake ==>
      var woken := Next(g, WakesByNudge(name)); LoopAt(woken, name) == Running && name !in woken.wake
    ensures name !in g.wake ==> Next(g, WakesByNudge(name)) == g
  {
  }

  lemma NudgeIsKept(g: Group, name: string)
    ensures Next(g, Nudges(name)) == if name in g.loops then g.(wake := g.wake + {name}) else g
  {
  }

  /** A run that ends puts its loop to sleep again; a sleeping loop leaves exactly when its context is done. */
  lemma LoopSleepsAndLeaves(g: Group, name: string)
    ensures LoopAt(g, name) == Running ==> LoopAt(Next(g, RunEnds(name)), name) == Sleeping
    ensures LoopAt(g, name) == Sleeping ==>
      (LoopAt(Next(g, SeesContextDone(name)), name) == Leaving <==> g.cancelled || g.parentDone)
  {
  }

  lemma ParentEndsContext(g: Group)
    ensures Next(g, ParentEnds) == g.(parentDone := true)
  {
    hide At, LoopAt;
  }

  /** How a loop turns: a pending nudge or its timer runs it, a run that ends puts it to sleep, and it leaves once its
      own or its parent's context is done, whatever the group is doing. */
  lemma LoopTurns(g: Group, name: string)
    requires LoopAt(g, name) == Sleeping
    ensures LoopAt(Next(g, WakesByTimer(name)), name) == Running
    ensures var woken := Next(Next(g, Nudges(name)), WakesByNudge(name));
            LoopAt(woken, name) == Running && name !in woken.wake
    ensures name !in g.wake ==> Next(g, WakesByNudge(name)) == g
    ensures LoopAt(Next(Next(g, WakesByTimer(name)), RunEnds(name)), name) == Sleeping
    ensures LoopAt(Next(Next(g, ParentEnds), SeesContextDone(name)), name) == Leaving
    ensures LoopAt(Next(g, SeesContextDone(name)), name) == Leaving <==> g.cancelled || g.parentDone
  {
    assert name in g.loops;
    NudgeIsKept(g, name);
    ParentEndsContext(g);
    LoopWakes(g, name);
    LoopSleepsAndLeaves(g, name);
    hide Next;
    assert LoopAt(g.(wake := g.wake + {name}), name) == Sleeping && LoopAt(g.(parentDone := true), name) == Sleeping;
    LoopWakes(g.(wake := g.wake + {name}), name);
    LoopSleepsAndLeaves(g.(parentDone := true), name);
    LoopSleepsAndLeaves(Next(g, WakesByTimer(name)), name);
  }

  // ---- Jitter ----

  /** drawn is a number in [0, 2 * jitter). */
  function Jittered(every: int, jitter: int, drawn: int): int {
    if jitter <= 0 then every
    else
      var delay := every + (drawn - jitter);
      if delay < 0 then 0 else delay
  }

  /** A wait is never negative and never further than the jitter from its interval. */
  lemma JitteredIsNear(every: nat, jitter: int, drawn: int)
    requires jitter > 0 ==> 0 <= drawn < 2 * jitter
    ensures var delay, spread := Jittered(every, jitter, drawn), if jitter > 0 then jitter else 0;
            0 <= delay && every - spread <= delay <= every + spread
  {
  }

  /** Every whole number of nanoseconds within the jitter, and not negative, is drawn by one number, and what would be
      negative is none at all; without a jitter the wait is its interval. */
  lemma JitterReachesAll(every: nat, jitter: int, wait: nat)
    ensures jitter <= 0 ==> forall drawn :: Jittered(every, jitter, drawn) == every
    ensures jitter > 0 && every - jitter <= wait < every + jitter ==>
              var drawn := wait - (every - jitter); 0 <= drawn < 2 * jitter && Jittered(every, jitter, drawn) == wait
    ensures jitter > 0 ==> forall drawn :: 0 <= drawn <= jitter - every ==> Jittered(every, jitter, drawn) == 0
  {
  }
}
